/**
 The request side of the RPC loop on top of the scheduler: what happens between the arrival of a request frame and
 the write of its response, with held responses racing cancellation. Frames are numbered by arrival.

 An id is assumed not to be reused while the promise chain of an earlier request with it is still unwinding, after
 that request has left the scheduler (section 5 of the base protocol forbids any reuse in a session).
 */
module RpcRequests {
  import opened Options
  import H = Histories
  import S = RequestScheduler

  type RequestID = S.RequestID

  /**
   What is outstanding for a frame: its handler (`Pending`), the release of its slot (`Settled`), the write of its
   response (`Answering`), or, for a held response, its terminal (`Held`), the write of that (`Claimed`) and the
   removal of its records (`Wrote`). `Answered` and `Silent` frames are finished.
   */
  datatype Phase = Pending | Settled(answers: bool) | Answering | Held | Claimed | Wrote | Answered | Silent

  datatype State = State(
    scheduler: S.State, disposing: bool, closed: bool,
    held: map<RequestID, nat>,
    // Ids whose handler returned a held response and whose slot release has not run yet.
    unwinding: set<RequestID>,
    ids: seq<RequestID>, phases: seq<Phase>,
    // History: the frames answered, in order of writing, those whose signal aborted in time, and those whose
    // held terminal was rejected.
    written: seq<nat>, silenced: set<nat>, rejected: set<nat>)

  function Initial(maxConcurrent: nat, maxQueued: nat): State {
    State(S.Initial(maxConcurrent, maxQueued), false, false, map[], {}, [], [], [], {}, {})
  }

  datatype HandlerResult = Value | Failure | HeldBack

  datatype Action =
    | Receive(id: RequestID)
    | Cancel(id: RequestID)
    | HandlerSettles(id: RequestID, result: HandlerResult)
    | Reclaim(id: RequestID)
    | ReclaimHeld(id: RequestID)
    | Write(frame: nat)
    | Claim(id: RequestID)
    | WriteHeld(id: RequestID)
    | Release(id: RequestID)
    | RejectTerminal(id: RequestID)
    | Dispose
    | Close

  predicate PhaseIs(s: State, m: map<RequestID, nat>, id: RequestID, p: Phase) {
    id in m && m[id] < |s.phases| && s.phases[m[id]] == p
  }

  predicate Enabled(s: State, a: Action) {
    match a
    case Receive(id) => id in s.unwinding ==> S.InFlight(s.scheduler, id)
    case Cancel(_) => true
    case HandlerSettles(id, _) => PhaseIs(s, s.scheduler.running, id, Pending)
    case Reclaim(id) =>
      PhaseIs(s, s.scheduler.running, id, Settled(true)) || PhaseIs(s, s.scheduler.running, id, Settled(false))
    case ReclaimHeld(id) => id in s.unwinding
    case Write(n) => n < |s.phases| && s.phases[n].Answering?
    case Claim(id) => PhaseIs(s, s.held, id, Held)
    case WriteHeld(id) => PhaseIs(s, s.held, id, Claimed)
    case Release(id) => PhaseIs(s, s.held, id, Wrote)
    case RejectTerminal(id) => PhaseIs(s, s.held, id, Held)
    case _ => true
  }

  // ----- The steps

  function SetPhase(s: State, n: nat, p: Phase): State
    requires n < |s.phases|
  {
    s.(phases := s.phases[n := p])
  }

  function Received(s: State, id: RequestID): State {
    var n := |s.phases|;
    var s' := s.(ids := s.ids + [id]);
    if s.disposing then s'.(phases := s.phases + [Answered], written := s.written + [n])
    else
      var verdict := S.Verdict(s.scheduler, id);
      s'.(scheduler := S.Scheduled(s.scheduler, id, n),
          phases := s.phases + [if verdict.Started? || verdict.Queued? then Pending else Answering])
  }

  /** Removes both records of a held request. */
  function RemoveHeld(s: State, id: RequestID): State {
    s.(held := s.held - {id}, scheduler := S.Completed(s.scheduler, id))
  }

  /** A waiting request is dropped and answers nothing. */
  function CancelledWaiter(s: State, id: RequestID): State
    requires S.IsQueued(s.scheduler, id)
  {
    var n := s.scheduler.queued[S.Position(s.scheduler.queued, id)].arrival;
    if n < |s.phases| then
      s.(scheduler := S.Cancelled(s.scheduler, id), phases := s.phases[n := Silent], silenced := s.silenced + {n})
    else s.(scheduler := S.Cancelled(s.scheduler, id))
  }

  /** The abort listener of a held request runs before its terminal was claimed. */
  function CancelledHeld(s: State, id: RequestID): State
    requires PhaseIs(s, s.held, id, Held)
  {
    var n := s.held[id];
    s.(scheduler := S.Completed(S.Cancelled(s.scheduler, id), id), held := s.held - {id},
       phases := s.phases[n := Silent], silenced := s.silenced + {n})
  }

  function Cancelled(s: State, id: RequestID): State {
    if S.IsQueued(s.scheduler, id) then CancelledWaiter(s, id)
    else if PhaseIs(s, s.held, id, Held) then CancelledHeld(s, id)
    else if PhaseIs(s, s.scheduler.running, id, Pending) then
      s.(scheduler := S.Cancelled(s.scheduler, id), silenced := s.silenced + {s.scheduler.running[id]})
    else s.(scheduler := S.Cancelled(s.scheduler, id))
  }

  function HandlerSettled(s: State, id: RequestID, result: HandlerResult): State
    requires Enabled(s, HandlerSettles(id, result))
  {
    var n := s.scheduler.running[id];
    if n in s.scheduler.aborted then SetPhase(s, n, Settled(false))
    else if !result.HeldBack? then SetPhase(s, n, Settled(true))
    else Withheld(s, id)
  }

  /** The handler defers its response: the request is recorded as held and gives up its slot. */
  function Withheld(s: State, id: RequestID): State
    requires PhaseIs(s, s.scheduler.running, id, Pending)
  {
    var n := s.scheduler.running[id];
    s.(phases := s.phases[n := Held], held := s.held[id := n], unwinding := s.unwinding + {id},
       scheduler := S.Detached(s.scheduler, id))
  }

  function Reclaimed(s: State, id: RequestID): State
    requires Enabled(s, Action.Reclaim(id))
  {
    var n := s.scheduler.running[id];
    SetPhase(s, n, if s.phases[n].answers then Answering else Silent).(scheduler := S.Reclaimed(s.scheduler, id))
  }

  /** The frames whose signal a close aborts before their handler settled or their terminal was claimed. */
  predicate Silences(s: State, n: nat)
    requires n < |s.phases|
  {
    s.phases[n].Held? || (s.phases[n].Pending? && n in S.AllAborted(s.scheduler).aborted)
  }

  function Unclaimed(held: map<RequestID, nat>, phases: seq<Phase>): set<RequestID> {
    set id | id in held && held[id] < |phases| && phases[held[id]].Held?
  }

  function SilencedByClose(s: State): set<nat> {
    set n: nat | n < |s.phases| && Silences(s, n)
  }

  /** The phases once every waiting request has resolved to nothing. */
  function Hushed(s: State): seq<Phase> {
    seq(|s.phases|, n requires 0 <= n < |s.phases| =>
      if n in S.Waiting(s.scheduler.queued) then Silent else s.phases[n])
  }

  /** The phases once every abort listener of an unclaimed held request has run. */
  function Dropped(phases: seq<Phase>): seq<Phase> {
    seq(|phases|, n requires 0 <= n < |phases| => if phases[n].Held? then Silent else phases[n])
  }

  function Closed(s: State): State {
    if s.closed then s
    else
      var scheduler := S.AllAborted(s.scheduler);
      var unclaimed := Unclaimed(s.held, Hushed(s));
      s.(closed := true, held := s.held - unclaimed,
         scheduler := scheduler.(detached := scheduler.detached - unclaimed),
         phases := Dropped(Hushed(s)),
         silenced := s.silenced + SilencedByClose(s))
  }

  function Step(s: State, a: Action): State
    requires Enabled(s, a)
  {
    match a
    case Receive(id) => Received(s, id)
    case Cancel(id) => Cancelled(s, id)
    case HandlerSettles(id, result) => HandlerSettled(s, id, result)
    case Reclaim(id) => Reclaimed(s, id)
    case ReclaimHeld(id) => s.(scheduler := S.Reclaimed(s.scheduler, id), unwinding := s.unwinding - {id})
    case Write(n) => SetPhase(s, n, Answered).(written := s.written + [n])
    case Claim(id) => SetPhase(s, s.held[id], Claimed)
    case WriteHeld(id) => SetPhase(s, s.held[id], Wrote).(written := s.written + [s.held[id]])
    case Release(id) => RemoveHeld(SetPhase(s, s.held[id], Answered), id)
    case RejectTerminal(id) =>
      RemoveHeld(SetPhase(s, s.held[id], Silent), id).(rejected := s.rejected + {s.held[id]})
    case Dispose => s.(disposing := true)
    case Close => Closed(s)
  }

  predicate Possible(s: State, actions: seq<Action>)
    decreases |actions|
  {
    actions == [] || (Enabled(s, actions[0]) && Possible(Step(s, actions[0]), actions[1..]))
  }

  function Run(s: State, actions: seq<Action>): State
    requires Possible(s, actions)
    decreases |actions|
  {
    if actions == [] then s else Run(Step(s, actions[0]), actions[1..])
  }

  /** The step of an action that can happen. */
  function Advance(s: State, a: Action): Option<State> {
    if Enabled(s, a) then Some(Step(s, a)) else None
  }

  lemma {:induction false} HistoryIsRun(s: State, log: seq<Action>, now: State)
    requires H.History(Advance, s, log, now)
    ensures Possible(s, log) && Run(s, log) == now
    decreases |log|
  {
    H.HistoryFirst(Advance, s, log, now);
    if log != [] { HistoryIsRun(Step(s, log[0]), log[1..], now); }
  }

  // ----- The invariant

  /** The scheduler has the frame waiting or running. */
  predicate Active(scheduler: S.State, id: RequestID, n: nat) {
    (id in scheduler.running && scheduler.running[id] == n) || S.Entry(id, n) in scheduler.queued
  }

  predicate IsHeld(p: Phase) {
    p.Held? || p.Claimed? || p.Wrote?
  }

  /** A frame's phase says exactly where its records are, and every record belongs to a frame of that id. */
  ghost predicate LinkAt(s: State, id: RequestID, n: nat)
    requires |s.phases| == |s.ids|
  {
    var here := n < |s.ids| && s.ids[n] == id;
    && (Active(s.scheduler, id, n) <==> here && (s.phases[n].Pending? || s.phases[n].Settled?))
    && (id in s.held && s.held[id] == n <==> here && IsHeld(s.phases[n]))
    && (here && s.phases[n].Settled? ==> id in s.scheduler.running && s.scheduler.running[id] == n)
    && (Active(s.scheduler, id, n) ==> id !in s.unwinding)
  }

  /** A frame is among the written exactly when its phase says so, and a silenced one can no longer be. */
  ghost predicate AnswerAt(s: State, n: nat)
    requires n < |s.phases|
  {
    && (n in s.written <==> s.phases[n].Answered? || s.phases[n].Wrote?)
    && (n in s.silenced ==>
          || s.phases[n].Silent?
          || s.phases[n] == Settled(false)
          || (s.phases[n].Pending? && n in s.scheduler.aborted))
    && (s.phases[n] == Settled(false) ==> n in s.silenced)
    && (s.phases[n].Pending? && n in s.scheduler.aborted ==> n in s.silenced)
    && (s.phases[n].Silent? ==> n in s.silenced || n in s.rejected)
  }

  ghost predicate Links(s: State) {
    |s.phases| == |s.ids| && forall id, n: nat :: LinkAt(s, id, n)
  }

  ghost predicate Answers(s: State) {
    forall n: nat :: n < |s.phases| ==> AnswerAt(s, n)
  }

  ghost predicate Distinct(written: seq<nat>) {
    forall i, j :: 0 <= i < j < |written| ==> written[i] != written[j]
  }

  ghost predicate Histories(s: State) {
    && Distinct(s.written)
    && (forall n :: n in s.written || n in s.silenced || n in s.scheduler.aborted ==> n < |s.phases|)
    && s.scheduler.bound <= |s.phases|
  }

  ghost predicate Schedule(s: State) {
    S.Inv(s.scheduler) && s.held == s.scheduler.detached
  }

  ghost predicate Inv(s: State) {
    Links(s) && Answers(s) && Histories(s) && Schedule(s)
  }

  // ----- What the scheduler's steps do to a frame

  lemma StartFirstKeepsActive(c: S.State, id: RequestID, n: nat)
    requires S.Mid(c) && c.queued != []
    ensures Active(S.StartFirst(c), id, n) <==> Active(c, id, n)
    ensures id in c.running ==> id in S.StartFirst(c).running && S.StartFirst(c).running[id] == c.running[id]
  {
    S.StartFirstDisjoint(c);
    assert c.queued == [c.queued[0]] + c.queued[1..];
    assert c.queued[0] == S.Entry(c.queued[0].id, c.queued[0].arrival);
  }

  lemma {:induction false} DrainKeepsActive(c: S.State, id: RequestID, n: nat)
    requires S.Mid(c)
    ensures Active(S.Drained(c), id, n) <==> Active(c, id, n)
    ensures id in c.running ==> id in S.Drained(c).running && S.Drained(c).running[id] == c.running[id]
    decreases |c.queued|
  {
    if |c.running| < c.maxConcurrent && c.queued != [] {
      S.StartFirstKeeps(c);
      StartFirstKeepsActive(c, id, n);
      DrainKeepsActive(S.StartFirst(c), id, n);
    }
  }

  lemma QueuedEntry(c: S.State, id: RequestID, n: nat)
    requires S.Disjoint(c)
    ensures S.Entry(id, n) in c.queued <==>
              S.IsQueued(c, id) && c.queued[S.Position(c.queued, id)] == S.Entry(id, n)
  {
    if S.Entry(id, n) in c.queued {
      var i :| 0 <= i < |c.queued| && c.queued[i] == S.Entry(id, n);
    }
  }

  lemma ScheduledActive(c: S.State, added: RequestID, arrival: nat, id: RequestID, n: nat)
    requires S.Inv(c)
    ensures Active(S.Scheduled(c, added, arrival), id, n) <==>
              || Active(c, id, n)
              || (id == added && n == arrival && (S.Verdict(c, added).Started? || S.Verdict(c, added).Queued?))
  {
  }

  /** Cancelling a waiting request takes exactly its entry out of the scheduler. */
  lemma CancelledActive(c: S.State, cancelled: RequestID, id: RequestID, n: nat)
    requires S.Disjoint(c)
    ensures Active(S.Cancelled(c, cancelled), id, n) <==>
              Active(c, id, n) && !(id == cancelled && S.IsQueued(c, cancelled))
  {
    var k := S.Position(c.queued, cancelled);
    QueuedEntry(c, id, n);
    if k < |c.queued| {
      RestHas(c.queued, k, S.Entry(id, n));
      assert c.queued[k] in c.queued;
    }
  }

  lemma RestHas(queued: seq<S.Entry>, k: nat, e: S.Entry)
    requires S.Distinct(queued) && k < |queued|
    ensures e in queued[..k] + queued[k + 1..] <==> e in queued && e != queued[k]
  {
    var rest := queued[..k] + queued[k + 1..];
    if e in queued && e != queued[k] {
      var i :| 0 <= i < |queued| && queued[i] == e;
      assert rest[if i < k then i else i - 1] == e;
    }
  }

  /** Releasing the slot of a running request takes exactly that request out of the line. */
  lemma ReclaimedActive(c: S.State, released: RequestID, id: RequestID, n: nat)
    requires S.Inv(c)
    ensures var c' := S.Reclaimed(c, released);
            && (Active(c', id, n) <==> Active(c, id, n) && !(id == released && id in c.running))
            && (id in c.running && id != released ==> id in c'.running && c'.running[id] == c.running[id])
            && c'.detached == c.detached && c'.aborted == c.aborted && c'.bound == c.bound
  {
    var c1 := c.(running := c.running - {released});
    S.SmallerMap(c.running, released);
    DrainKeepsActive(c1, id, n);
    S.DrainKeepsSignals(c1);
  }

  lemma DetachedActive(c: S.State, released: RequestID, id: RequestID, n: nat)
    requires S.Inv(c) && released in c.running
    ensures var c' := S.Detached(c, released);
            && (Active(c', id, n) <==> Active(c, id, n) && id != released)
            && (id in c.running && id != released ==> id in c'.running && c'.running[id] == c.running[id])
            && c'.detached == c.detached[released := c.running[released]]
            && c'.aborted == c.aborted && c'.bound == c.bound
  {
    var c1 := c.(running := c.running - {released}, detached := c.detached[released := c.running[released]]);
    S.SmallerMap(c.running, released);
    DrainKeepsActive(c1, id, n);
    S.DrainKeepsSignals(c1);
  }

  // ----- Every step keeps the invariant

  lemma ReceiveLink(s: State, id: RequestID, u: RequestID, n: nat)
    requires Inv(s) && Enabled(s, Receive(id))
    ensures LinkAt(Received(s, id), u, n)
  {
    assert LinkAt(s, u, n);
    ScheduledActive(s.scheduler, id, |s.phases|, u, n);
  }

  lemma ReceiveAnswer(s: State, id: RequestID, n: nat)
    requires Inv(s) && n <= |s.phases|
    ensures AnswerAt(Received(s, id), n)
  {
    if n < |s.phases| { assert AnswerAt(s, n); }
  }

  lemma WrittenSnoc(written: seq<nat>, n: nat)
    requires Distinct(written) && n !in written
    ensures Distinct(written + [n])
  {
  }

  lemma ReceiveKeeps(s: State, id: RequestID)
    requires Inv(s) && Enabled(s, Receive(id))
    ensures Inv(Received(s, id))
  {
    var s' := Received(s, id);
    S.ScheduleKeeps(s.scheduler, id, |s.phases|);
    forall u: RequestID, n: nat ensures LinkAt(s', u, n) { ReceiveLink(s, id, u, n); }
    forall n: nat | n < |s'.phases| ensures AnswerAt(s', n) { ReceiveAnswer(s, id, n); }
    WrittenSnoc(s.written, |s.phases|);
  }

  /** The frame of a waiting request is pending, and the only active one with its id. */
  lemma WaiterIsPending(s: State, id: RequestID)
    requires Links(s) && S.Disjoint(s.scheduler) && S.IsQueued(s.scheduler, id)
    ensures var n := s.scheduler.queued[S.Position(s.scheduler.queued, id)].arrival;
            n < |s.phases| && s.ids[n] == id && s.phases[n].Pending? && Active(s.scheduler, id, n)
            && forall m: nat :: Active(s.scheduler, id, m) ==> m == n
  {
    var c := s.scheduler;
    var e := c.queued[S.Position(c.queued, id)];
    assert e == S.Entry(id, e.arrival) && e in c.queued;
    assert LinkAt(s, id, e.arrival);
    forall m: nat | Active(c, id, m) ensures m == e.arrival { QueuedEntry(c, id, m); }
  }

  lemma CancelWaiterKeeps(s: State, id: RequestID)
    requires Inv(s) && S.IsQueued(s.scheduler, id)
    ensures Inv(CancelledWaiter(s, id))
  {
    var s' := CancelledWaiter(s, id);
    S.CancelKeeps(s.scheduler, id);
    WaiterIsPending(s, id);
    forall u: RequestID, n: nat ensures LinkAt(s', u, n) {
      CancelledActive(s.scheduler, id, u, n);
      assert LinkAt(s, u, n);
    }
    forall n: nat | n < |s'.phases| ensures AnswerAt(s', n) { assert AnswerAt(s, n); }
  }

  lemma CancelHeldLink(s: State, id: RequestID, u: RequestID, n: nat)
    requires Inv(s) && PhaseIs(s, s.held, id, Held)
    ensures LinkAt(CancelledHeld(s, id), u, n)
  {
    assert LinkAt(s, id, s.held[id]);
    CancelledActive(s.scheduler, id, u, n);
    assert LinkAt(s, u, n);
  }

  lemma CancelHeldAnswer(s: State, id: RequestID, n: nat)
    requires Inv(s) && PhaseIs(s, s.held, id, Held) && n < |s.phases|
    ensures AnswerAt(CancelledHeld(s, id), n)
  {
    assert LinkAt(s, id, s.held[id]);
    assert AnswerAt(s, n);
  }

  lemma CancelHeldKeeps(s: State, id: RequestID)
    requires Inv(s) && PhaseIs(s, s.held, id, Held)
    ensures Inv(CancelledHeld(s, id))
  {
    var s' := CancelledHeld(s, id);
    S.CancelKeeps(s.scheduler, id);
    S.CompleteKeeps(S.Cancelled(s.scheduler, id), id);
    assert LinkAt(s, id, s.held[id]);
    forall u: RequestID, n: nat ensures LinkAt(s', u, n) { CancelHeldLink(s, id, u, n); }
    forall n: nat | n < |s'.phases| ensures AnswerAt(s', n) { CancelHeldAnswer(s, id, n); }
  }

  lemma CancelOtherLink(s: State, id: RequestID, u: RequestID, n: nat)
    requires Links(s) && S.Disjoint(s.scheduler) && !S.IsQueued(s.scheduler, id) && !PhaseIs(s, s.held, id, Held)
    ensures LinkAt(Cancelled(s, id), u, n)
  {
    CancelledActive(s.scheduler, id, u, n);
    assert LinkAt(s, u, n);
  }

  lemma CancelOtherAnswer(s: State, id: RequestID, n: nat)
    requires Inv(s) && !S.IsQueued(s.scheduler, id) && !PhaseIs(s, s.held, id, Held) && n < |s.phases|
    ensures AnswerAt(Cancelled(s, id), n)
  {
    assert id in s.scheduler.running ==> LinkAt(s, id, s.scheduler.running[id]);
    assert id in s.held ==> LinkAt(s, id, s.held[id]);
    assert AnswerAt(s, n);
  }

  lemma CancelOtherKeeps(s: State, id: RequestID)
    requires Inv(s) && !S.IsQueued(s.scheduler, id) && !PhaseIs(s, s.held, id, Held)
    ensures Inv(Cancelled(s, id))
  {
    var s' := Cancelled(s, id);
    S.CancelKeeps(s.scheduler, id);
    assert id in s.scheduler.running ==> LinkAt(s, id, s.scheduler.running[id]);
    assert id in s.held ==> LinkAt(s, id, s.held[id]);
    forall u: RequestID, n: nat ensures LinkAt(s', u, n) { CancelOtherLink(s, id, u, n); }
    forall n: nat | n < |s'.phases| ensures AnswerAt(s', n) { CancelOtherAnswer(s, id, n); }
  }

  lemma WithheldLink(s: State, id: RequestID, u: RequestID, n: nat)
    requires Inv(s) && PhaseIs(s, s.scheduler.running, id, Pending)
    ensures LinkAt(Withheld(s, id), u, n)
  {
    DetachedActive(s.scheduler, id, u, n);
    assert LinkAt(s, u, n);
    assert LinkAt(s, id, s.scheduler.running[id]);
  }

  lemma WithheldKeeps(s: State, id: RequestID)
    requires Inv(s) && PhaseIs(s, s.scheduler.running, id, Pending) && s.scheduler.running[id] !in s.scheduler.aborted
    ensures Inv(Withheld(s, id))
  {
    var s' := Withheld(s, id);
    S.DetachKeeps(s.scheduler, id);
    DetachedActive(s.scheduler, id, id, 0);
    forall u: RequestID, n: nat ensures LinkAt(s', u, n) { WithheldLink(s, id, u, n); }
    forall n: nat | n < |s'.phases| ensures AnswerAt(s', n) { assert AnswerAt(s, n); }
  }

  lemma HandlerKeeps(s: State, id: RequestID, result: HandlerResult)
    requires Inv(s) && Enabled(s, HandlerSettles(id, result))
    requires result.HeldBack? ==> s.scheduler.running[id] in s.scheduler.aborted
    ensures Inv(HandlerSettled(s, id, result))
  {
    var s' := HandlerSettled(s, id, result);
    assert LinkAt(s, id, s.scheduler.running[id]);
    forall u: RequestID, n: nat ensures LinkAt(s', u, n) { assert LinkAt(s, u, n); }
    forall n: nat | n < |s'.phases| ensures AnswerAt(s', n) { assert AnswerAt(s, n); }
  }

  lemma ReclaimLink(s: State, id: RequestID, u: RequestID, n: nat)
    requires Inv(s) && Enabled(s, Action.Reclaim(id))
    ensures LinkAt(Reclaimed(s, id), u, n)
  {
    assert LinkAt(s, u, n);
    assert LinkAt(s, id, s.scheduler.running[id]);
    assert LinkAt(s, u, s.scheduler.running[id]);
    ReclaimedActive(s.scheduler, id, u, n);
  }

  lemma ReclaimKeeps(s: State, id: RequestID)
    requires Inv(s) && Enabled(s, Action.Reclaim(id))
    ensures Inv(Reclaimed(s, id))
  {
    var s' := Reclaimed(s, id);
    S.ReclaimKeeps(s.scheduler, id);
    ReclaimedActive(s.scheduler, id, id, 0);
    forall u: RequestID, n: nat ensures LinkAt(s', u, n) { ReclaimLink(s, id, u, n); }
    forall n: nat | n < |s'.phases| ensures AnswerAt(s', n) { assert AnswerAt(s, n); }
  }

  lemma ReclaimHeldKeeps(s: State, id: RequestID)
    requires Inv(s) && id in s.unwinding
    ensures Inv(Step(s, ReclaimHeld(id)))
  {
    var s' := Step(s, ReclaimHeld(id));
    S.ReclaimKeeps(s.scheduler, id);
    ReclaimedActive(s.scheduler, id, id, 0);
    forall u: RequestID, n: nat ensures LinkAt(s', u, n) {
      assert LinkAt(s, u, n);
      assert id in s.scheduler.running ==> LinkAt(s, id, s.scheduler.running[id]);
      ReclaimedActive(s.scheduler, id, u, n);
    }
    forall n: nat | n < |s'.phases| ensures AnswerAt(s', n) { assert AnswerAt(s, n); }
  }

  lemma WriteKeeps(s: State, n: nat)
    requires Inv(s) && Enabled(s, Write(n))
    ensures Inv(Step(s, Write(n)))
  {
    var s' := Step(s, Write(n));
    assert AnswerAt(s, n);
    forall u: RequestID, m: nat ensures LinkAt(s', u, m) { assert LinkAt(s, u, m); }
    forall m: nat | m < |s'.phases| ensures AnswerAt(s', m) { assert AnswerAt(s, m); }
  }

  lemma HeldStepKeeps(s: State, a: Action)
    requires Inv(s) && Enabled(s, a) && (a.Claim? || a.WriteHeld?)
    ensures Inv(Step(s, a))
  {
    var s' := Step(s, a);
    var frame := s.held[a.id];
    assert AnswerAt(s, frame);
    assert LinkAt(s, a.id, frame);
    forall u: RequestID, n: nat ensures LinkAt(s', u, n) { assert LinkAt(s, u, n); }
    forall n: nat | n < |s'.phases| ensures AnswerAt(s', n) { assert AnswerAt(s, n); }
  }

  lemma ReleaseLink(s: State, a: Action, u: RequestID, n: nat)
    requires Inv(s) && Enabled(s, a) && (a.Release? || a.RejectTerminal?)
    ensures LinkAt(Step(s, a), u, n)
  {
    assert LinkAt(s, a.id, s.held[a.id]);
    assert LinkAt(s, u, n);
    assert LinkAt(s, u, s.held[a.id]);
  }

  lemma ReleaseKeeps(s: State, a: Action)
    requires Inv(s) && Enabled(s, a) && (a.Release? || a.RejectTerminal?)
    ensures Inv(Step(s, a))
  {
    var s' := Step(s, a);
    var frame := s.held[a.id];
    assert LinkAt(s, a.id, frame);
    S.CompleteKeeps(s.scheduler, a.id);
    forall u: RequestID, n: nat ensures LinkAt(s', u, n) { ReleaseLink(s, a, u, n); }
    forall n: nat | n < |s'.phases| ensures AnswerAt(s', n) { assert AnswerAt(s, n) && AnswerAt(s, frame); }
  }

  /** The waiting frames are those whose entry, under their own id, is in the queue. */
  lemma WaitingFrames(s: State, n: nat)
    requires Links(s)
    ensures n in S.Waiting(s.scheduler.queued) <==>
              n < |s.ids| && S.Entry(s.ids[n], n) in s.scheduler.queued
  {
    var queued := s.scheduler.queued;
    if n in S.Waiting(queued) {
      var i :| 0 <= i < |queued| && S.Arrivals(queued)[i] == n;
      assert queued[i] == S.Entry(queued[i].id, n);
      assert LinkAt(s, queued[i].id, n);
    }
  }

  /** What closing does to one frame: waiting and unclaimed held ones fall silent, the rest stays. */
  lemma ClosedPhase(s: State, n: nat)
    requires Links(s) && n < |s.phases| && !s.closed
    ensures |Closed(s).phases| == |s.phases| && Closed(s).ids == s.ids
    ensures Closed(s).phases[n] ==
            if s.phases[n].Held? || S.Entry(s.ids[n], n) in s.scheduler.queued then Silent else s.phases[n]
  {
    WaitingFrames(s, n);
  }

  lemma ClosedHeld(s: State, u: RequestID, n: nat)
    requires Links(s) && !s.closed
    ensures u in Closed(s).held && Closed(s).held[u] == n <==>
            u in s.held && s.held[u] == n && !(n < |s.phases| && s.phases[n].Held?)
  {
    assert LinkAt(s, u, n);
    WaitingFrames(s, n);
  }

  lemma CloseLink(s: State, u: RequestID, n: nat)
    requires Links(s) && S.Disjoint(s.scheduler) && !s.closed
    ensures LinkAt(Closed(s), u, n)
  {
    assert LinkAt(s, u, n);
    if n < |s.phases| { ClosedPhase(s, n); }
    ClosedHeld(s, u, n);
    assert S.Entry(u, n) in s.scheduler.queued ==> u !in s.scheduler.running;
  }

  /** Closing aborts every signal, and silences the frames it still can. */
  lemma ClosedSignals(s: State, n: nat)
    requires n < |s.phases| && !s.closed
    ensures n in Closed(s).silenced <==> n in s.silenced || Silences(s, n)
    ensures Closed(s).written == s.written && Closed(s).rejected == s.rejected
    ensures Closed(s).scheduler.aborted == S.AllAborted(s.scheduler).aborted
    ensures n in s.scheduler.aborted || n in S.Waiting(s.scheduler.queued) ==> n in S.AllAborted(s.scheduler).aborted
  {
  }

  lemma CloseAnswer(s: State, n: nat)
    requires Links(s) && S.Disjoint(s.scheduler) && n < |s.phases| && !s.closed && AnswerAt(s, n)
    ensures AnswerAt(Closed(s), n)
  {
    assert LinkAt(s, s.ids[n], n);
    assert S.Entry(s.ids[n], n) in s.scheduler.queued ==> s.ids[n] !in s.scheduler.running;
    ClosedSignals(s, n);
    ClosedPhase(s, n);
    WaitingFrames(s, n);
  }

  lemma AbortedFrames(s: State, n: nat)
    requires Inv(s) && n in S.AllAborted(s.scheduler).aborted
    ensures n < |s.phases|
  {
    WaitingFrames(s, n);
    if n in s.scheduler.running.Values {
      var id :| id in s.scheduler.running && s.scheduler.running[id] == n;
      assert LinkAt(s, id, n);
    } else if n in s.scheduler.detached.Values {
      var id :| id in s.scheduler.detached && s.scheduler.detached[id] == n;
      assert LinkAt(s, id, n);
    }
  }

  lemma CloseSchedule(s: State)
    requires Inv(s) && !s.closed
    ensures Schedule(Closed(s))
  {
    var scheduler := S.AllAborted(s.scheduler);
    S.AbortAllKeeps(s.scheduler);
    S.ForgettingKeeps(scheduler, Unclaimed(s.held, Hushed(s)));
  }

  lemma CloseHistories(s: State)
    requires Inv(s) && !s.closed
    ensures Histories(Closed(s))
  {
    forall n | n in Closed(s).scheduler.aborted ensures n < |s.phases| { AbortedFrames(s, n); }
  }

  lemma CloseKeeps(s: State)
    requires Inv(s)
    ensures Inv(Closed(s))
  {
    if !s.closed {
      var s' := Closed(s);
      CloseSchedule(s);
      CloseHistories(s);
      forall u: RequestID, n: nat ensures LinkAt(s', u, n) { CloseLink(s, u, n); }
      forall n: nat | n < |s'.phases| ensures AnswerAt(s', n) {
        assert AnswerAt(s, n);
        CloseAnswer(s, n);
      }
    }
  }

  lemma StepKeeps(s: State, a: Action)
    requires Inv(s) && Enabled(s, a)
    ensures Inv(Step(s, a))
  {
    match a
    case Receive(id) => ReceiveKeeps(s, id);
    case Cancel(id) =>
      if S.IsQueued(s.scheduler, id) {
        CancelWaiterKeeps(s, id);
      } else if PhaseIs(s, s.held, id, Held) {
        CancelHeldKeeps(s, id);
      } else {
        CancelOtherKeeps(s, id);
      }
    case HandlerSettles(id, result) =>
      if result.HeldBack? && s.scheduler.running[id] !in s.scheduler.aborted {
        WithheldKeeps(s, id);
      } else {
        HandlerKeeps(s, id, result);
      }
    case Reclaim(id) => ReclaimKeeps(s, id);
    case ReclaimHeld(id) => ReclaimHeldKeeps(s, id);
    case Write(n) => WriteKeeps(s, n);
    case Claim(id) => HeldStepKeeps(s, a);
    case WriteHeld(id) => HeldStepKeeps(s, a);
    case Release(id) => ReleaseKeeps(s, a);
    case RejectTerminal(id) => ReleaseKeeps(s, a);
    case Dispose => DisposeKeeps(s);
    case Close => CloseKeeps(s);
  }

  lemma DisposeKeeps(s: State)
    requires Inv(s)
    ensures Inv(Step(s, Dispose))
  {
    var s' := Step(s, Dispose);
    forall u: RequestID, n: nat ensures LinkAt(s', u, n) { assert LinkAt(s, u, n); }
    forall n: nat | n < |s'.phases| ensures AnswerAt(s', n) { assert AnswerAt(s, n); }
  }

  lemma {:induction false} RunKeeps(s: State, actions: seq<Action>)
    requires Inv(s) && Possible(s, actions)
    ensures Inv(Run(s, actions))
    decreases |actions|
  {
    if actions != [] {
      StepKeeps(s, actions[0]);
      RunKeeps(Step(s, actions[0]), actions[1..]);
    }
  }

  lemma InitialInv(maxConcurrent: nat, maxQueued: nat)
    ensures Inv(Initial(maxConcurrent, maxQueued))
  {
    var s := Initial(maxConcurrent, maxQueued);
    S.InitialInv(maxConcurrent, maxQueued);
    forall u: RequestID, n: nat ensures LinkAt(s, u, n) { }
  }

  ghost predicate Reaches(s: State, actions: seq<Action>) {
    var s0 := Initial(s.scheduler.maxConcurrent, s.scheduler.maxQueued);
    Possible(s0, actions) && s == Run(s0, actions)
  }

  /** A state some run of a fresh connection leads to. */
  ghost predicate Reachable(s: State) {
    exists actions: seq<Action> :: Reaches(s, actions)
  }

  lemma ReachableInv(s: State)
    requires Reachable(s)
    ensures Inv(s)
  {
    var actions :| Reaches(s, actions);
    InitialInv(s.scheduler.maxConcurrent, s.scheduler.maxQueued);
    RunKeeps(Initial(s.scheduler.maxConcurrent, s.scheduler.maxQueued), actions);
  }

  // ----- Responses

  /** Every frame is answered at most once, and never when its signal aborted in time or its terminal failed. */
  lemma AtMostOneResponse(s: State)
    requires Reachable(s)
    ensures Distinct(s.written)
    ensures forall n :: n in s.written ==> n < |s.phases| && n !in s.silenced
    ensures forall n: nat :: n < |s.phases| && s.phases[n].Silent? ==>
              n !in s.written && (n in s.silenced || n in s.rejected)
  {
    ReachableInv(s);
    forall n: nat | n < |s.phases| && (n in s.written || s.phases[n].Silent?)
      ensures n in s.written ==> n !in s.silenced
      ensures s.phases[n].Silent? ==> n !in s.written && (n in s.silenced || n in s.rejected)
    {
      assert AnswerAt(s, n);
    }
  }

  /**
   No frame is stuck: an unfinished one waits for its own handler, for the write or the terminal it names, or
   for a slot while all of them are taken.
   */
  lemma NothingIsStuck(s: State, n: nat)
    requires Reachable(s) && n < |s.phases| == |s.ids|
    ensures var id := s.ids[n];
            match s.phases[n]
            case Pending =>
              || (forall result :: Enabled(s, HandlerSettles(id, result)))
              || (S.IsQueued(s.scheduler, id) && |s.scheduler.running| == s.scheduler.maxConcurrent)
            case Settled(_) => Enabled(s, Action.Reclaim(id))
            case Answering => Enabled(s, Write(n))
            case Held => Enabled(s, Claim(id))
            case Claimed => Enabled(s, WriteHeld(id))
            case Wrote => Enabled(s, Release(id))
            case _ => n in s.written || n in s.silenced || n in s.rejected
  {
    ReachableInv(s);
    var id := s.ids[n];
    assert LinkAt(s, id, n);
    assert AnswerAt(s, n);
    QueuedEntry(s.scheduler, id, n);
  }

  /** Held requests are exactly the detached ones, and none of them takes a slot. */
  lemma HeldRequestsTakeNoSlot(s: State)
    requires Reachable(s)
    ensures s.held == s.scheduler.detached
    ensures s.held.Keys !! s.scheduler.running.Keys
    ensures |s.scheduler.running| <= s.scheduler.maxConcurrent
  {
    ReachableInv(s);
  }

  lemma CancelGrows(s: State, id: RequestID)
    ensures s.silenced <= Cancelled(s, id).silenced && |s.phases| == |Cancelled(s, id).phases|
  {
  }

  lemma StepGrows(s: State, a: Action)
    requires Enabled(s, a)
    ensures s.silenced <= Step(s, a).silenced && |s.phases| <= |Step(s, a).phases|
  {
    match a
    case Cancel(id) => CancelGrows(s, id);
    case HandlerSettles(id, result) => assert HandlerSettled(s, id, result).silenced == s.silenced;
    case Close => assert s.silenced <= Closed(s).silenced;
    case _ =>
  }

  lemma {:induction false} SilencedForGood(s: State, n: nat, later: seq<Action>)
    requires Inv(s) && Possible(s, later) && n in s.silenced
    ensures n !in Run(s, later).written
    decreases |later|
  {
    if later == [] {
      assert AnswerAt(s, n);
    } else {
      StepKeeps(s, later[0]);
      StepGrows(s, later[0]);
      SilencedForGood(Step(s, later[0]), n, later[1..]);
    }
  }

  /** Whether cancelling an id now comes before its handler settled or its held terminal was claimed. */
  predicate InTime(s: State, id: RequestID, n: nat) {
    n < |s.phases| == |s.ids| && s.ids[n] == id && (s.phases[n].Pending? || s.phases[n].Held?)
  }

  /** A request cancelled in time is never answered, whatever happens afterwards. */
  lemma CancelledInTimeNeverAnswered(s: State, id: RequestID, n: nat, later: seq<Action>)
    requires Reachable(s) && InTime(s, id, n) && Possible(Step(s, Cancel(id)), later)
    ensures n !in Run(Step(s, Cancel(id)), later).written
  {
    ReachableInv(s);
    assert LinkAt(s, id, n);
    QueuedEntry(s.scheduler, id, n);
    if S.IsQueued(s.scheduler, id) { WaiterIsPending(s, id); }
    StepKeeps(s, Cancel(id));
    SilencedForGood(Step(s, Cancel(id)), n, later);
  }

  /** So is every request that is pending or held unclaimed when the connection first closes. */
  lemma ClosedInTimeNeverAnswered(s: State, n: nat, later: seq<Action>)
    requires Reachable(s) && !s.closed && n < |s.phases| == |s.ids| && InTime(s, s.ids[n], n)
    requires Possible(Step(s, Close), later)
    ensures n !in Run(Step(s, Close), later).written
  {
    ReachableInv(s);
    assert LinkAt(s, s.ids[n], n);
    WaitingFrames(s, n);
    StepKeeps(s, Close);
    SilencedForGood(Step(s, Close), n, later);
  }

  predicate Winning(p: Phase) {
    p.Claimed? || p.Wrote? || p.Answered?
  }

  lemma ClaimBeatsCancel(s: State, n: nat, id: RequestID)
    requires Inv(s) && n < |s.phases| && Winning(s.phases[n])
    ensures n < |Cancelled(s, id).phases| && Winning(Cancelled(s, id).phases[n])
  {
    if S.IsQueued(s.scheduler, id) { WaiterIsPending(s, id); }
  }

  lemma ClaimBeatsClose(s: State, n: nat)
    requires Inv(s) && n < |s.phases| && Winning(s.phases[n])
    ensures n < |Closed(s).phases| && Winning(Closed(s).phases[n])
  {
    WaitingFrames(s, n);
    assert LinkAt(s, s.ids[n], n);
  }

  lemma ClaimBeatsHandler(s: State, n: nat, a: Action)
    requires Enabled(s, a) && n < |s.phases| && Winning(s.phases[n]) && (a.HandlerSettles? || a.Reclaim?)
    ensures n < |Step(s, a).phases| && Winning(Step(s, a).phases[n])
  {
    assert n != s.scheduler.running[a.id];
  }

  lemma ClaimBeatsHeld(s: State, n: nat, a: Action)
    requires Enabled(s, a) && n < |s.phases| && Winning(s.phases[n])
    requires a.Claim? || a.WriteHeld? || a.Release? || a.RejectTerminal?
    ensures n < |Step(s, a).phases| && Winning(Step(s, a).phases[n])
  {
  }

  lemma ClaimWinsStep(s: State, n: nat, a: Action)
    requires Inv(s) && Enabled(s, a) && n < |s.phases| && Winning(s.phases[n])
    ensures n < |Step(s, a).phases| && Winning(Step(s, a).phases[n])
  {
    match a
    case Cancel(id) => ClaimBeatsCancel(s, n, id);
    case HandlerSettles(_, _) => ClaimBeatsHandler(s, n, a);
    case Reclaim(_) => ClaimBeatsHandler(s, n, a);
    case Claim(_) => ClaimBeatsHeld(s, n, a);
    case WriteHeld(_) => ClaimBeatsHeld(s, n, a);
    case Release(_) => ClaimBeatsHeld(s, n, a);
    case RejectTerminal(_) => ClaimBeatsHeld(s, n, a);
    case Close => ClaimBeatsClose(s, n);
    case _ =>
  }

  /** Once a terminal is claimed, no later cancellation or close takes its response away. */
  lemma {:induction false} ClaimWins(s: State, n: nat, later: seq<Action>)
    requires Inv(s) && Possible(s, later) && n < |s.phases| && Winning(s.phases[n])
    ensures n < |Run(s, later).phases| && Winning(Run(s, later).phases[n]) && n !in Run(s, later).silenced
    decreases |later|
  {
    if later == [] {
      assert AnswerAt(s, n);
    } else {
      StepKeeps(s, later[0]);
      ClaimWinsStep(s, n, later[0]);
      ClaimWins(Step(s, later[0]), n, later[1..]);
    }
  }

  // ----- Closing, one record at a time

  /** Held requests and frames point at each other. */
  ghost predicate HeldLinked(ids: seq<RequestID>, held: map<RequestID, nat>, phases: seq<Phase>) {
    && |ids| == |phases|
    && (forall id :: id in held ==> held[id] < |ids| && ids[held[id]] == id)
    && forall n :: 0 <= n < |phases| && phases[n].Held? ==> ids[n] in held && held[ids[n]] == n
  }

  lemma HushedLinked(s: State)
    requires Inv(s)
    ensures HeldLinked(s.ids, s.held, Hushed(s))
  {
    forall id | id in s.held ensures s.held[id] < |s.ids| && s.ids[s.held[id]] == id {
      assert LinkAt(s, id, s.held[id]);
    }
    forall n | 0 <= n < |s.phases| && s.phases[n].Held? ensures s.ids[n] in s.held && s.held[s.ids[n]] == n {
      assert LinkAt(s, s.ids[n], n);
    }
  }

  /** The listeners of every id outside `todo` have run. */
  ghost predicate Aborting(ids: seq<RequestID>, held0: map<RequestID, nat>, phases0: seq<Phase>,
                           todo: set<RequestID>, held: map<RequestID, nat>, phases: seq<Phase>) {
    && |phases| == |phases0| == |ids|
    && held == held0 - (Unclaimed(held0, phases0) - todo)
    && forall n :: 0 <= n < |phases| ==>
         phases[n] == if phases0[n].Held? && ids[n] !in todo then Silent else phases0[n]
  }

  lemma AbortingStep(ids: seq<RequestID>, held0: map<RequestID, nat>, phases0: seq<Phase>,
                     todo: set<RequestID>, held: map<RequestID, nat>, phases: seq<Phase>, id: RequestID)
    requires HeldLinked(ids, held0, phases0) && Aborting(ids, held0, phases0, todo, held, phases)
    requires id in todo && todo <= held0.Keys
    ensures id in held && held[id] == held0[id] < |phases|
    ensures if phases[held[id]].Held?
            then Aborting(ids, held0, phases0, todo - {id}, held - {id}, phases[held[id] := Silent])
            else Aborting(ids, held0, phases0, todo - {id}, held, phases)
  {
    var n := held0[id];
    assert phases[n].Held? <==> id in Unclaimed(held0, phases0);
    if phases[n].Held? {
      assert Unclaimed(held0, phases0) - (todo - {id}) == (Unclaimed(held0, phases0) - todo) + {id};
    } else {
      assert Unclaimed(held0, phases0) - (todo - {id}) == Unclaimed(held0, phases0) - todo;
    }
  }

  lemma AbortingDone(ids: seq<RequestID>, held0: map<RequestID, nat>, phases0: seq<Phase>,
                     held: map<RequestID, nat>, phases: seq<Phase>)
    requires Aborting(ids, held0, phases0, {}, held, phases)
    ensures held == held0 - Unclaimed(held0, phases0) && phases == Dropped(phases0)
  {
    assert Unclaimed(held0, phases0) - {} == Unclaimed(held0, phases0);
  }

  // ----- The request side of the connection as a class

  class Connection {
    const scheduler: S.Scheduler
    var disposing: bool
    var closed: bool
    var held: map<RequestID, nat>
    // The promise chains of the frames received.
    var unwinding: set<RequestID>
    var ids: seq<RequestID>
    var phases: seq<Phase>
    ghost var written: seq<nat>
    ghost var silenced: set<nat>
    ghost var rejected: set<nat>
    ghost var log: seq<Action>

    ghost function Fields(): State
      reads this, scheduler
    {
      State(scheduler.Fields(), disposing, closed, held, unwinding, ids, phases, written, silenced, rejected)
    }

    /** The actions of the log have led from a new connection to this one. */
    ghost predicate Valid()
      reads this, scheduler
    {
      H.History(Advance, Initial(scheduler.maxConcurrent, scheduler.maxQueued), log, Fields())
    }

    constructor (maxConcurrent: nat, maxQueued: nat)
      ensures Valid() && log == [] && fresh(scheduler)
      ensures Fields() == Initial(maxConcurrent, maxQueued)
    {
      scheduler := new S.Scheduler(maxConcurrent, maxQueued);
      disposing, closed, held, unwinding, ids, phases := false, false, map[], {}, [], [];
      written, silenced, rejected, log := [], {}, {}, [];
      new;
      H.NoHistory(Advance, Initial(maxConcurrent, maxQueued));
    }

    /** A request frame: refused while disposing, otherwise handed to the scheduler. */
    method HandleRequest(id: RequestID)
      requires Enabled(Fields(), Receive(id)) && scheduler.bound <= |phases|
      modifies `closed, `held, `unwinding, `ids, `phases, `written, `silenced, `rejected, scheduler
      ensures Fields() == Step(old(Fields()), Receive(id))
    {
      var frame := |phases|;
      ids := ids + [id];
      if disposing {
        phases, written := phases + [Answered], written + [frame];
        return;
      }
      var outcome := scheduler.Accept(id, frame);
      phases := phases + [if outcome.Started? || outcome.Queued? then Pending else Answering];
    }

    /** A cancellation notification. */
    method HandleCancelled(id: RequestID)
      modifies `closed, `held, `unwinding, `ids, `phases, `written, `silenced, `rejected, scheduler
      ensures Fields() == Step(old(Fields()), Cancel(id))
    {
      var k := scheduler.Find(id);
      if k < |scheduler.queued| {
        DropWaiter(id, k);
      } else if id in held && held[id] < |phases| && phases[held[id]].Held? {
        scheduler.CancelRequest(id);
        OnAbort(id);
      } else {
        SignalRunning(id);
      }
    }

    method DropWaiter(id: RequestID, k: nat)
      requires k == S.Position(scheduler.queued, id) && k < |scheduler.queued|
      modifies `phases, `silenced, scheduler
      ensures Fields() == CancelledWaiter(old(Fields()), id)
    {
      var frame := scheduler.queued[k].arrival;
      if frame < |phases| {
        phases, silenced := phases[frame := Silent], silenced + {frame};
      }
      scheduler.CancelRequest(id);
    }

    method SignalRunning(id: RequestID)
      requires !S.IsQueued(scheduler.Fields(), id) && !PhaseIs(Fields(), held, id, Held)
      modifies `silenced, scheduler
      ensures Fields() == Cancelled(old(Fields()), id)
    {
      if id in scheduler.running && scheduler.running[id] < |phases| && phases[scheduler.running[id]].Pending? {
        silenced := silenced + {scheduler.running[id]};
      }
      scheduler.CancelRequest(id);
    }

    /** The abort listener of a held request whose terminal is not claimed. */
    method OnAbort(id: RequestID)
      requires PhaseIs(Fields(), held, id, Held)
      modifies `held, `phases, `silenced, scheduler
      ensures Fields() == SetPhase(RemoveHeld(old(Fields()), id), old(held)[id], Silent)
                          .(silenced := old(silenced) + {old(held)[id]})
    {
      phases, silenced := phases[held[id] := Silent], silenced + {held[id]};
      RemoveRecords(id);
    }

    /** The single cleanup path of a held request. */
    method RemoveRecords(id: RequestID)
      modifies `held, scheduler
      ensures Fields() == RemoveHeld(old(Fields()), id)
    {
      held := held - {id};
      scheduler.CompleteDetached(id);
    }

    /** The handler of a running request settled. */
    method OnHandlerSettled(id: RequestID, result: HandlerResult)
      requires Enabled(Fields(), HandlerSettles(id, result))
      modifies `closed, `held, `unwinding, `ids, `phases, `written, `silenced, `rejected, scheduler
      ensures Fields() == Step(old(Fields()), HandlerSettles(id, result))
    {
      var frame := scheduler.running[id];
      if frame in scheduler.aborted {
        phases := phases[frame := Settled(false)];
      } else if result.HeldBack? {
        phases := phases[frame := Held];
        held := held[id := frame];
        unwinding := unwinding + {id};
        scheduler.DetachRequest(id);
      } else {
        phases := phases[frame := Settled(true)];
      }
    }

    /** The scheduler's own continuation: it frees the slot and hands the response on. */
    method OnSlotReleased(id: RequestID)
      requires Enabled(Fields(), Action.Reclaim(id))
      modifies `closed, `held, `unwinding, `ids, `phases, `written, `silenced, `rejected, scheduler
      ensures Fields() == Step(old(Fields()), Action.Reclaim(id))
    {
      var frame := scheduler.running[id];
      phases := phases[frame := if phases[frame].answers then Answering else Silent];
      scheduler.Finish(id);
    }

    method OnHeldSlotReleased(id: RequestID)
      requires Enabled(Fields(), ReclaimHeld(id))
      modifies `closed, `held, `unwinding, `ids, `phases, `written, `silenced, `rejected, scheduler
      ensures Fields() == Step(old(Fields()), ReclaimHeld(id))
    {
      unwinding := unwinding - {id};
      scheduler.Finish(id);
    }

    method WriteResponse(frame: nat)
      requires Enabled(Fields(), Write(frame))
      modifies `phases, `written
      ensures Fields() == Step(old(Fields()), Write(frame))
    {
      phases, written := phases[frame := Answered], written + [frame];
    }

    /** The terminal of a held request resolved: it is claimed before anything is awaited. */
    method OnTerminal(id: RequestID)
      requires Enabled(Fields(), Claim(id))
      modifies `phases
      ensures Fields() == Step(old(Fields()), Claim(id))
    {
      phases := phases[held[id] := Claimed];
    }

    method WriteTerminal(id: RequestID)
      requires Enabled(Fields(), WriteHeld(id))
      modifies `phases, `written
      ensures Fields() == Step(old(Fields()), WriteHeld(id))
    {
      phases, written := phases[held[id] := Wrote], written + [held[id]];
    }

    method OnTerminalWritten(id: RequestID)
      requires Enabled(Fields(), Release(id))
      modifies `closed, `held, `unwinding, `ids, `phases, `written, `silenced, `rejected, scheduler
      ensures Fields() == Step(old(Fields()), Release(id))
    {
      phases := phases[held[id] := Answered];
      RemoveRecords(id);
    }

    method OnTerminalRejected(id: RequestID)
      requires Enabled(Fields(), RejectTerminal(id))
      modifies `closed, `held, `unwinding, `ids, `phases, `written, `silenced, `rejected, scheduler
      ensures Fields() == Step(old(Fields()), RejectTerminal(id))
    {
      phases, rejected := phases[held[id] := Silent], rejected + {held[id]};
      RemoveRecords(id);
    }

    /** The waiting requests of a closing connection resolve to nothing. */
    method SilenceWaiters()
      modifies `phases
      ensures phases == Hushed(old(Fields()))
    {
      var i := 0;
      while i < |scheduler.queued|
        invariant i <= |scheduler.queued| && |phases| == |old(phases)|
        invariant forall n :: 0 <= n < |phases| ==>
                    phases[n] == if n in S.Waiting(scheduler.queued[..i]) then Silent else old(phases)[n]
      {
        var frame := scheduler.queued[i].arrival;
        assert S.Arrivals(scheduler.queued[..i + 1]) == S.Arrivals(scheduler.queued[..i]) + [frame];
        if frame < |phases| {
          phases := phases[frame := Silent];
        }
        i := i + 1;
      }
      assert scheduler.queued[..i] == scheduler.queued;
    }

    /** The abort listeners of all held requests run, each on its own record. */
    method AbortHeld()
      requires HeldLinked(ids, held, phases) && held == scheduler.detached
      modifies `held, `phases, scheduler
      ensures scheduler.Fields() == old(scheduler.Fields()).(detached := held)
      ensures held == old(held) - Unclaimed(old(held), old(phases))
      ensures phases == Dropped(old(phases))
    {
      var todo := held.Keys;
      while todo != {}
        invariant todo <= old(held).Keys
        invariant Aborting(ids, old(held), old(phases), todo, held, phases)
        invariant scheduler.Fields() == old(scheduler.Fields()).(detached := held)
        decreases |todo|
      {
        var id := AnyOf(todo);
        AbortingStep(ids, old(held), old(phases), todo, held, phases, id);
        todo := todo - {id};
        AbortOne(id);
      }
      AbortingDone(ids, old(held), old(phases), held, phases);
    }

    method AbortOne(id: RequestID)
      requires id in held && held[id] < |phases| && held == scheduler.detached
      modifies `held, `phases, scheduler
      ensures var aborts := old(phases)[old(held)[id]].Held?;
              && held == (if aborts then old(held) - {id} else old(held))
              && phases == (if aborts then old(phases)[old(held)[id] := Silent] else old(phases))
      ensures scheduler.Fields() == old(scheduler.Fields()).(detached := held)
    {
      if phases[held[id]].Held? {
        phases := phases[held[id] := Silent];
        RemoveRecords(id);
      }
    }

    /** The transport is gone: every handler is told, and whoever still waits learns that nothing will come. */
    method CloseConnection()
      requires Inv(Fields())
      modifies `closed, `held, `unwinding, `ids, `phases, `written, `silenced, `rejected, scheduler
      ensures Fields() == Step(old(Fields()), Close)
    {
      if !closed {
        HushedLinked(Fields());
        EndPendingRequests();
      }
    }

    method EndPendingRequests()
      requires !closed && HeldLinked(ids, held, Hushed(Fields())) && held == scheduler.detached
      modifies `closed, `held, `unwinding, `ids, `phases, `written, `silenced, `rejected, scheduler
      ensures Fields() == Closed(old(Fields()))
    {
      closed := true;
      silenced := silenced + SilencedByClose(old(Fields()));
      SilenceWaiters();
      assert phases == Hushed(old(Fields()));
      scheduler.AbortEverything();
      AbortHeld();
    }

    method BeginDispose()
      modifies `disposing
      ensures Fields() == Step(old(Fields()), Dispose)
    {
      disposing := true;
    }

    method OnHandler(a: Action)
      requires Enabled(Fields(), a) && (a.HandlerSettles? || a.Reclaim? || a.ReclaimHeld? || a.Write?)
      modifies `closed, `held, `unwinding, `ids, `phases, `written, `silenced, `rejected, scheduler
      ensures Fields() == Step(old(Fields()), a)
    {
      match a
      case HandlerSettles(id, result) => OnHandlerSettled(id, result);
      case Reclaim(id) => OnSlotReleased(id);
      case ReclaimHeld(id) => OnHeldSlotReleased(id);
      case Write(frame) => WriteResponse(frame);
    }

    method OnHeld(a: Action)
      requires Enabled(Fields(), a) && (a.Claim? || a.WriteHeld? || a.Release? || a.RejectTerminal?)
      modifies `closed, `held, `unwinding, `ids, `phases, `written, `silenced, `rejected, scheduler
      ensures Fields() == Step(old(Fields()), a)
    {
      match a
      case Claim(id) => OnTerminal(id);
      case WriteHeld(id) => WriteTerminal(id);
      case Release(id) => OnTerminalWritten(id);
      case RejectTerminal(id) => OnTerminalRejected(id);
    }

    method Apply(a: Action)
      requires Inv(Fields()) && Enabled(Fields(), a)
      modifies `disposing, `closed, `held, `unwinding, `ids, `phases, `written, `silenced, `rejected, scheduler
      ensures Fields() == Step(old(Fields()), a)
    {
      match a
      case Receive(id) => HandleRequest(id);
      case Cancel(id) => HandleCancelled(id);
      case HandlerSettles(_, _) => OnHandler(a);
      case Reclaim(_) => OnHandler(a);
      case ReclaimHeld(_) => OnHandler(a);
      case Write(_) => OnHandler(a);
      case Claim(_) => OnHeld(a);
      case WriteHeld(_) => OnHeld(a);
      case Release(_) => OnHeld(a);
      case RejectTerminal(_) => OnHeld(a);
      case Dispose => BeginDispose();
      case Close => CloseConnection();
    }

    lemma ValidReachable()
      requires Valid()
      ensures Reachable(Fields()) && Inv(Fields())
    {
      HistoryIsRun(Initial(scheduler.maxConcurrent, scheduler.maxQueued), log, Fields());
      assert Reaches(Fields(), log);
      ReachableInv(Fields());
    }

    /** Whatever can happen to the connection, with its place in the history. */
    method Handle(a: Action)
      requires Valid() && Enabled(Fields(), a)
      modifies this, scheduler
      ensures Valid() && log == old(log) + [a] && Fields() == Step(old(Fields()), a)
    {
      ValidReachable();
      Apply(a);
      H.HistoryGrows(Advance, Initial(scheduler.maxConcurrent, scheduler.maxQueued), log, old(Fields()), a, Fields());
      log := log + [a];
    }

    /** Every connection answers each frame at most once, never one silenced in time, and holds without a slot. */
    lemma AnswersOnce()
      requires Valid()
      ensures Distinct(written) && forall n :: n in written ==> n < |phases| && n !in silenced
      ensures held == scheduler.detached && held.Keys !! scheduler.running.Keys
    {
      ValidReachable();
      AtMostOneResponse(Fields());
      HeldRequestsTakeNoSlot(Fields());
    }
  }
}
