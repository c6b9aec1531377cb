/**
 The client's resource-subscription driver as a state machine.

 Every change of filter and every reconnection opens a new generation of the listen stream. The steps are the
 synchronous stretches of the driver: a call, the start of a queued task, a frame, the end of a stream, a failed
 acknowledgement wait, the resumption of the task that waited, an elapsed backoff delay, and disposal.
 */
module SubscriptionDriver {
  import opened Options
  import H = Histories

  type URI = string

  datatype Request = Subscribe(uri: URI) | Unsubscribe(uri: URI) | Open | Reconnect

  /** The promise a candidate's opener waits on. `retryable` says whether a reconnection may try again. */
  datatype Ack = Waiting | Resolved | Rejected(retryable: bool)

  /** One listen stream. `target` is the resource part of its filter; the base part never changes. */
  datatype Generation = Generation(target: set<URI>, acknowledged: bool, retired: bool, ack: Ack)

  datatype Task = Task(request: Request, generation: nat)

  datatype SettleReason = Result | StreamError | Cancel | Closed

  /** A frame handed to the listeners: the stream it came on and how many promotions preceded it. */
  datatype Delivery = Delivery(generation: nat, promotions: nat)

  /**
   What happened so far: the calls in order with the outcomes of those that settled, the generation opened for
   each call, the generations promoted, the frames delivered, the delays waited since the last reset, and whether
   the last active stream was closed by its transport with nothing promoted or given up since.
   */
  datatype History = History(
    calls: seq<Request>, outcomes: seq<bool>, openedFor: map<nat, nat>, promoted: seq<nat>,
    delivered: seq<Delivery>, delays: seq<nat>, owed: bool)

  datatype State = State(
    backoffBase: nat, backoffCap: nat,
    generations: seq<Generation>, active: Option<nat>, candidate: Option<nat>, desired: set<URI>,
    queue: seq<Request>, running: Option<Task>,
    attempt: nat, timers: nat, disposed: bool,
    history: History)

  function Initial(backoffBase: nat, backoffCap: nat): State {
    State(backoffBase, backoffCap, [], None, None, {}, [], None, 0, 0, false,
          History([], [], map[], [], [], [], false))
  }

  function Target(desired: set<URI>, r: Request): set<URI> {
    match r
    case Subscribe(uri) => desired + {uri}
    case Unsubscribe(uri) => desired - {uri}
    case _ => desired
  }

  function Power2(n: nat): nat {
    if n == 0 then 1 else 2 * Power2(n - 1)
  }

  function Backoff(base: nat, cap: nat, attempt: nat): nat {
    var delay := base * Power2(if attempt == 0 then 0 else attempt - 1);
    if delay < cap then delay else cap
  }

  datatype Action =
    | Call(request: Request)
    | Begin(aborted: bool)
    | Frame(generation: nat, acknowledges: bool)
    | Settle(generation: nat, reason: SettleReason, retryable: bool)
    | FailWait(generation: nat, retryable: bool)
    | Resume
    | DelayElapsed
    | Dispose

  predicate Enabled(s: State, a: Action) {
    match a
    case Call(r) => !r.Reconnect?
    case Begin(aborted) => s.running.None? && s.queue != [] && (aborted ==> !s.queue[0].Reconnect?)
    case Frame(g, _) => g < |s.generations|
    case Settle(g, _, _) => g < |s.generations|
    case FailWait(g, _) => g < |s.generations|
    case Resume =>
      s.running.Some? && s.running.value.generation < |s.generations|
      && !s.generations[s.running.value.generation].ack.Waiting?
    case DelayElapsed => s.timers > 0
    case Dispose => true
  }

  // ----- The steps

  function Settled(h: History, r: Request, outcome: bool): History {
    if r.Reconnect? then h else h.(outcomes := h.outcomes + [outcome])
  }

  function ScheduleReconnect(s: State): State {
    if s.disposed then s
    else
      s.(attempt := s.attempt + 1, timers := s.timers + 1,
         history := s.history.(delays := s.history.delays + [Backoff(s.backoffBase, s.backoffCap, s.attempt + 1)]))
  }

  function ResetBackoff(s: State): State {
    s.(attempt := 0, history := s.history.(delays := []))
  }

  predicate Live(s: State) {
    s.active.Some? && s.active.value < |s.generations|
    && s.generations[s.active.value].acknowledged && !s.generations[s.active.value].retired
  }

  /** Allocates the candidate for a request and publishes it, unless its signal is already aborted. */
  function OpenCandidate(s: State, r: Request, aborted: bool): State {
    var g := |s.generations|;
    var generation := Generation(Target(s.desired, r), false, aborted, if aborted then Rejected(false) else Waiting);
    s.(generations := s.generations + [generation], candidate := if aborted then s.candidate else Some(g),
       running := Some(Task(r, g)),
       history := if r.Reconnect? then s.history
                  else s.history.(openedFor := s.history.openedFor[|s.history.outcomes| := g]))
  }

  function Start(s: State, aborted: bool): State
    requires s.queue != []
  {
    var r := s.queue[0];
    var s' := s.(queue := s.queue[1..]);
    if s.disposed then s'.(history := Settled(s.history, r, false))
    else if r.Reconnect? && Live(s) then ResetBackoff(s')
    else OpenCandidate(s', r, aborted)
  }

  function SetGeneration(s: State, g: nat, generation: Generation): State
    requires g < |s.generations|
  {
    s.(generations := s.generations[g := generation])
  }

  /** Fails a candidate that is neither acknowledged nor retired. */
  function FailGeneration(s: State, g: nat, retryable: bool): State
    requires g < |s.generations|
  {
    var generation := s.generations[g];
    if generation.acknowledged || generation.retired then s
    else SetGeneration(s, g, generation.(retired := true, ack := Rejected(retryable)))
  }

  function OnFrame(s: State, g: nat, acknowledges: bool): State
    requires g < |s.generations|
  {
    var generation := s.generations[g];
    if generation.retired then s
    else if generation.acknowledged then
      s.(history := s.history.(delivered := s.history.delivered + [Delivery(g, |s.history.promoted|)]))
    else if acknowledges then SetGeneration(s, g, generation.(acknowledged := true, ack := Resolved))
    else FailGeneration(s, g, false)
  }

  function OnSettle(s: State, g: nat, reason: SettleReason, retryable: bool): State
    requires g < |s.generations|
  {
    var generation := s.generations[g];
    if generation.retired then s
    else if !generation.acknowledged then
      SetGeneration(s, g, generation.(retired := true, ack := Rejected(reason.Closed? || retryable)))
    else
      var s' := SetGeneration(s, g, generation.(retired := true));
      if s.active != Some(g) then s'
      else if reason.Closed? then ScheduleReconnect(s'.(active := None, history := s.history.(owed := true)))
      else s'.(active := None)
  }

  /** Installs the candidate, commits its target, and retires the stream it replaces. */
  function Promote(s: State, g: nat): State
    requires g < |s.generations|
  {
    var s' := s.(active := Some(g), desired := s.generations[g].target,
                 history := s.history.(promoted := s.history.promoted + [g], owed := false));
    if s.active.None? || s.active.value >= |s.generations| then s'
    else SetGeneration(s', s.active.value, s.generations[s.active.value].(retired := true))
  }

  /** The opener of a candidate succeeds. */
  function Succeeded(s: State, r: Request): State {
    if r.Reconnect? then ResetBackoff(s) else s.(history := Settled(s.history, r, true))
  }

  /** The opener of a candidate fails. */
  function Failed(s: State, r: Request, retryable: bool): State {
    if !r.Reconnect? then s.(history := Settled(s.history, r, false))
    else if retryable then ScheduleReconnect(s)
    else ResetBackoff(s.(history := s.history.(owed := false)))
  }

  function Finish(s: State): State
    requires Enabled(s, Resume)
  {
    var t := s.running.value;
    var generation := s.generations[t.generation];
    var s' := s.(running := None, candidate := if s.candidate == Some(t.generation) then None else s.candidate);
    if generation.ack.Rejected? then Failed(s', t.request, generation.ack.retryable)
    else if s.disposed || generation.retired then
      Failed(SetGeneration(s', t.generation, generation.(retired := true)), t.request, true)
    else Succeeded(Promote(s', t.generation), t.request)
  }

  function RetireActive(s: State): State {
    var s' := s.(active := None);
    if s.active.None? || s.active.value >= |s.generations| || s.generations[s.active.value].retired then s'
    else SetGeneration(s', s.active.value, s.generations[s.active.value].(retired := true))
  }

  function Disposed(s: State): State {
    var s' := s.(disposed := true, candidate := None);
    RetireActive(
      if s.candidate.None? || s.candidate.value >= |s.generations| then s'
      else FailGeneration(s', s.candidate.value, false))
  }

  function Step(s: State, a: Action): State
    requires Enabled(s, a)
  {
    match a
    case Call(r) => s.(queue := s.queue + [r], history := s.history.(calls := s.history.calls + [r]))
    case Begin(aborted) => Start(s, aborted)
    case Frame(g, acknowledges) => OnFrame(s, g, acknowledges)
    case Settle(g, reason, retryable) => OnSettle(s, g, reason, retryable)
    case FailWait(g, retryable) => FailGeneration(s, g, retryable)
    case Resume => Finish(s)
    case DelayElapsed =>
      s.(timers := s.timers - 1, queue := if s.disposed then s.queue else s.queue + [Reconnect])
    case Dispose => Disposed(s)
  }

  predicate Possible(s: State, actions: seq<Action>)
    decreases |actions|
  {
    actions == [] || (Enabled(s, actions[0]) && Possible(Step(s, actions[0]), actions[1..]))
  }

  function Run(s: State, actions: seq<Action>): State
    requires Possible(s, actions)
    decreases |actions|
  {
    if actions == [] then s else Run(Step(s, actions[0]), actions[1..])
  }

  /** The step of an action that can happen. */
  function Advance(s: State, a: Action): Option<State> {
    if Enabled(s, a) then Some(Step(s, a)) else None
  }

  lemma {:induction false} HistoryIsRun(s: State, log: seq<Action>, now: State)
    requires H.History(Advance, s, log, now)
    ensures Possible(s, log) && Run(s, log) == now
    decreases |log|
  {
    H.HistoryFirst(Advance, s, log, now);
    if log != [] { HistoryIsRun(Step(s, log[0]), log[1..], now); }
  }

  // ----- Reference: the calls that resolved, applied in call order

  /** The resource set after the first `n` outcomes: resolved calls applied in order, rejected ones skipped. */
  function Folded(calls: seq<Request>, outcomes: seq<bool>): set<URI>
    requires |outcomes| <= |calls|
  {
    if outcomes == [] then {}
    else
      var n := |outcomes| - 1;
      var before := Folded(calls, outcomes[..n]);
      if outcomes[n] then Target(before, calls[n]) else before
  }

  function Users(queue: seq<Request>): seq<Request> {
    if queue == [] then [] else (if queue[0].Reconnect? then [] else [queue[0]]) + Users(queue[1..])
  }

  lemma {:induction false} UsersOfConcat(a: seq<Request>, b: seq<Request>)
    ensures Users(a + b) == Users(a) + Users(b)
  {
    if a == [] {
      assert a + b == b;
    } else {
      var r, rest := a[0], a[1..];
      UsersOfConcat(rest, b);
      UsersOfFirst(r, rest + b);
      UsersOfFirst(r, rest);
      FirstOfConcat(r, rest, b);
      FirstOfConcat(r, Users(rest), Users(b));
      assert a == [r] + rest;
    }
  }

  lemma UsersOfQueue(queue: seq<Request>)
    requires queue != []
    ensures Users(queue) == if queue[0].Reconnect? then Users(queue[1..]) else [queue[0]] + Users(queue[1..])
  {
  }

  lemma NothingFirst(rest: seq<Request>)
    ensures [] + rest == rest
  {
  }

  lemma FirstOfConcat(r: Request, rest: seq<Request>, more: seq<Request>)
    ensures [r] + rest + more == [r] + (rest + more)
  {
  }

  lemma UsersOfFirst(r: Request, rest: seq<Request>)
    ensures Users([r] + rest) == if r.Reconnect? then Users(rest) else [r] + Users(rest)
  {
    assert ([r] + rest)[1..] == rest;
  }

  lemma {:induction false} FoldedIgnoresLaterCalls(calls: seq<Request>, more: seq<Request>, outcomes: seq<bool>)
    requires |outcomes| <= |calls|
    ensures Folded(calls + more, outcomes) == Folded(calls, outcomes)
    decreases |outcomes|
  {
    if outcomes != [] {
      FoldedIgnoresLaterCalls(calls, more, outcomes[..|outcomes| - 1]);
    }
  }

  lemma FoldedSnoc(calls: seq<Request>, outcomes: seq<bool>, outcome: bool)
    requires |outcomes| < |calls|
    ensures Folded(calls, outcomes + [outcome]) ==
            if outcome then Target(Folded(calls, outcomes), calls[|outcomes|]) else Folded(calls, outcomes)
  {
    var all := outcomes + [outcome];
    assert all[..|all| - 1] == outcomes;
  }

  // ----- The invariant

  /** Acknowledgement and retirement agree with the promise, and only the active and the candidate are not retired. */
  ghost predicate GenerationAt(s: State, g: nat)
    requires g < |s.generations|
  {
    var generation := s.generations[g];
    && (generation.acknowledged <==> generation.ack.Resolved?)
    && (generation.ack.Waiting? ==> !generation.retired)
    && (generation.ack.Rejected? ==> generation.retired)
    && (!generation.retired ==> s.active == Some(g) || (s.running.Some? && s.running.value.generation == g))
  }

  ghost predicate Streams(s: State) {
    && (forall g: nat :: g < |s.generations| ==> GenerationAt(s, g))
    && (s.active.Some? ==>
          Live(s) && s.generations[s.active.value].target == s.desired
          && s.history.promoted != [] && s.history.promoted[|s.history.promoted| - 1] == s.active.value)
    && (s.disposed ==> s.active.None? && s.candidate.None?)
    && (s.candidate.Some? ==> s.running.Some? && s.candidate.value == s.running.value.generation)
  }

  ghost predicate Candidate(s: State) {
    s.running.Some? ==>
      var t := s.running.value;
      && t.generation == |s.generations| - 1
      && s.active != Some(t.generation)
      && s.generations[t.generation].target == Target(s.desired, t.request)
      && (s.candidate.None? ==> !s.generations[t.generation].ack.Waiting?)
  }

  ghost predicate Ascending(s: seq<nat>) {
    forall i, j :: 0 <= i < j < |s| ==> s[i] < s[j]
  }

  ghost predicate Promotions(s: State) {
    var promoted := s.history.promoted;
    && Ascending(promoted)
    && (forall i :: 0 <= i < |promoted| ==> promoted[i] < |s.generations|)
    && (s.running.Some? ==>
          forall i :: 0 <= i < |promoted| ==> promoted[i] < s.running.value.generation)
    && (forall d :: d in s.history.delivered ==> Gated(promoted, d))
  }

  ghost predicate Gated(promoted: seq<nat>, d: Delivery) {
    d.promotions <= |promoted| && forall k :: 0 <= k < d.promotions ==> promoted[k] <= d.generation
  }

  function InFlight(running: Option<Task>): seq<Request> {
    if running.Some? && !running.value.request.Reconnect? then [running.value.request] else []
  }

  /** Whether the generation opened for call `i`, if any, was promoted. */
  ghost predicate WasPromoted(h: History, i: nat) {
    i in h.openedFor && h.openedFor[i] in h.promoted
  }

  ghost predicate OpenedAt(s: State, i: nat) {
    var h := s.history;
    && (i in h.openedFor ==> h.openedFor[i] < |s.generations|)
    && (i < |h.outcomes| ==> (h.outcomes[i] <==> WasPromoted(h, i)))
    && (i < |h.outcomes| && i in h.openedFor && s.running.Some? ==> h.openedFor[i] < s.running.value.generation)
    && (i == |h.outcomes| && InFlight(s.running) != [] ==>
          i in h.openedFor && h.openedFor[i] == s.running.value.generation)
    && (i >= |h.outcomes| + |InFlight(s.running)| ==> i !in h.openedFor)
  }

  ghost predicate Calls(s: State) {
    var h := s.history;
    && |h.outcomes| <= |h.calls|
    && h.calls[|h.outcomes|..] == InFlight(s.running) + Users(s.queue)
    && s.desired == Folded(h.calls, h.outcomes)
    && forall i: nat :: OpenedAt(s, i)
  }

  ghost predicate ReconnectPending(s: State) {
    s.timers > 0 || Reconnect in s.queue || (s.running.Some? && s.running.value.request.Reconnect?)
  }

  ghost predicate Reconnecting(s: State) {
    && (s.history.owed ==> s.active.None?)
    && (s.history.owed && !s.disposed ==> ReconnectPending(s))
    && |s.history.delays| == s.attempt
    && forall i :: 0 <= i < s.attempt ==> s.history.delays[i] == Backoff(s.backoffBase, s.backoffCap, i + 1)
  }

  ghost predicate Inv(s: State) {
    Streams(s) && Candidate(s) && Promotions(s) && Calls(s) && Reconnecting(s)
  }

  lemma InitialInv(backoffBase: nat, backoffCap: nat)
    ensures Inv(Initial(backoffBase, backoffCap))
  {
  }

  /** The calls stand where they stood, unless one is made or settles. */
  lemma CallsSame(s: State, s': State)
    requires Calls(s) && |s'.generations| >= |s.generations|
    requires s'.history.calls == s.history.calls && s'.history.outcomes == s.history.outcomes
    requires s'.history.openedFor == s.history.openedFor && s'.history.promoted == s.history.promoted
    requires s'.running == s.running && Users(s'.queue) == Users(s.queue) && s'.desired == s.desired
    ensures Calls(s')
  {
    forall i: nat ensures OpenedAt(s', i) { assert OpenedAt(s, i); }
  }

  lemma CallKeeps(s: State, r: Request)
    requires Inv(s) && Enabled(s, Call(r))
    ensures Inv(Step(s, Call(r)))
  {
    var s' := Step(s, Call(r));
    forall g: nat | g < |s'.generations| ensures GenerationAt(s', g) { assert GenerationAt(s, g); }
    CalledCalls(s, r);
  }

  lemma CalledCalls(s: State, r: Request)
    requires Calls(s) && !r.Reconnect?
    ensures Calls(Step(s, Call(r)))
  {
    var s', h := Step(s, Call(r)), s.history;
    UsersOfConcat(s.queue, [r]);
    UsersOfFirst(r, []);
    assert [r] + [] == [r];
    FoldedIgnoresLaterCalls(h.calls, [r], h.outcomes);
    assert s'.history.calls[|h.outcomes|..] == h.calls[|h.outcomes|..] + [r];
    forall i: nat ensures OpenedAt(s', i) { assert OpenedAt(s, i); }
  }

  lemma FrameKeeps(s: State, g: nat, acknowledges: bool)
    requires Inv(s) && g < |s.generations|
    ensures Inv(OnFrame(s, g, acknowledges))
  {
    assert GenerationAt(s, g);
    var generation := s.generations[g];
    if !generation.retired && !generation.acknowledged {
      if acknowledges { AcknowledgeKeeps(s, g); } else { FailKeeps(s, g, false); }
    } else {
      var s' := OnFrame(s, g, acknowledges);
      forall u: nat | u < |s'.generations| ensures GenerationAt(s', u) { assert GenerationAt(s, u); }
      if !generation.retired { DeliveryKeeps(s, g); }
      CallsSame(s, s');
    }
  }

  lemma DeliveryKeeps(s: State, g: nat)
    requires Streams(s) && Promotions(s) && g < |s.generations|
    requires s.generations[g].acknowledged && !s.generations[g].retired
    ensures Gated(s.history.promoted, Delivery(g, |s.history.promoted|))
  {
    assert GenerationAt(s, g);
  }

  lemma AcknowledgeKeeps(s: State, g: nat)
    requires Inv(s) && g < |s.generations| && !s.generations[g].retired && !s.generations[g].acknowledged
    ensures Inv(SetGeneration(s, g, s.generations[g].(acknowledged := true, ack := Resolved)))
  {
    var s' := SetGeneration(s, g, s.generations[g].(acknowledged := true, ack := Resolved));
    assert GenerationAt(s, g);
    forall u: nat | u < |s'.generations| ensures GenerationAt(s', u) { assert GenerationAt(s, u); }
    CallsSame(s, s');
  }

  lemma FailKeeps(s: State, g: nat, retryable: bool)
    requires Inv(s) && g < |s.generations|
    ensures Inv(FailGeneration(s, g, retryable))
  {
    var s' := FailGeneration(s, g, retryable);
    assert GenerationAt(s, g);
    forall u: nat | u < |s'.generations| ensures GenerationAt(s', u) { assert GenerationAt(s, u); }
    CallsSame(s, s');
  }

  /** An acknowledged stream ends; if it is the active one, there is none any more. */
  function Ended(s: State, g: nat): State
    requires g < |s.generations|
  {
    s.(generations := s.generations[g := s.generations[g].(retired := true)],
       active := if s.active == Some(g) then None else s.active)
  }

  lemma EndedKeeps(s: State, g: nat)
    requires Inv(s) && g < |s.generations| && s.generations[g].acknowledged && !s.generations[g].retired
    ensures Inv(Ended(s, g))
  {
    var s' := Ended(s, g);
    assert GenerationAt(s, g);
    forall u: nat | u < |s'.generations| ensures GenerationAt(s', u) { assert GenerationAt(s, u); }
    CallsSame(s, s');
  }

  lemma OwedKeeps(s: State)
    requires Inv(s) && s.active.None?
    ensures Inv(ScheduleReconnect(s.(history := s.history.(owed := true)))) || s.disposed
    ensures s.disposed ==> Inv(s.(history := s.history.(owed := true)))
  {
    var s' := ScheduleReconnect(s.(history := s.history.(owed := true)));
    forall u: nat | u < |s'.generations| ensures GenerationAt(s', u) { assert GenerationAt(s, u); }
    CallsSame(s, s');
  }

  lemma SettleKeeps(s: State, g: nat, reason: SettleReason, retryable: bool)
    requires Inv(s) && g < |s.generations|
    ensures Inv(OnSettle(s, g, reason, retryable))
  {
    var generation := s.generations[g];
    if !generation.retired {
      if !generation.acknowledged {
        FailKeeps(s, g, reason.Closed? || retryable);
      } else {
        EndedKeeps(s, g);
        if s.active == Some(g) { OwedKeeps(Ended(s, g)); }
      }
    }
  }

  lemma DelayKeeps(s: State)
    requires Inv(s) && Enabled(s, DelayElapsed)
    ensures Inv(Step(s, DelayElapsed))
  {
    var s' := Step(s, DelayElapsed);
    UsersOfConcat(s.queue, [Reconnect]);
    UsersOfFirst(Reconnect, []);
    assert [Reconnect] + [] == [Reconnect];
    forall u: nat | u < |s'.generations| ensures GenerationAt(s', u) { assert GenerationAt(s, u); }
    CallsSame(s, s');
  }

  lemma DisposedStreams(s: State)
    requires Streams(s) && Candidate(s)
    ensures Streams(Disposed(s)) && Candidate(Disposed(s))
    ensures |Disposed(s).generations| == |s.generations| && Disposed(s).running == s.running
    ensures Disposed(s).queue == s.queue && Disposed(s).desired == s.desired && Disposed(s).history == s.history
  {
    var s' := Disposed(s);
    if s.candidate.Some? { assert GenerationAt(s, s.candidate.value); }
    forall u: nat | u < |s'.generations| ensures GenerationAt(s', u) { assert GenerationAt(s, u); }
  }

  lemma DisposeKeeps(s: State)
    requires Inv(s)
    ensures Inv(Disposed(s))
  {
    DisposedStreams(s);
    CallsSame(s, Disposed(s));
  }

  lemma RefusedOpened(s: State, i: nat)
    requires Calls(s) && s.running.None? && s.queue != [] && s.disposed
    ensures OpenedAt(Start(s, false), i)
  {
    assert OpenedAt(s, i);
  }

  lemma RefusedCall(calls: seq<Request>, outcomes: seq<bool>, r: Request, rest: seq<Request>)
    requires |outcomes| <= |calls| && calls[|outcomes|..] == [r] + rest
    ensures |outcomes| < |calls| && calls[|outcomes| + 1..] == rest
    ensures Folded(calls, outcomes + [false]) == Folded(calls, outcomes)
  {
    NextCall(calls, |outcomes|, r, rest);
    FoldedSnoc(calls, outcomes, false);
  }

  lemma RefusedCalls(s: State)
    requires Calls(s) && s.running.None? && s.queue != [] && s.disposed
    ensures Calls(Start(s, false))
  {
    var r, rest := s.queue[0], Users(s.queue[1..]);
    forall i: nat ensures OpenedAt(Start(s, false), i) { RefusedOpened(s, i); }
    UsersOfQueue(s.queue);
    NothingFirst(Users(s.queue));
    NothingFirst(rest);
    if !r.Reconnect? { RefusedCall(s.history.calls, s.history.outcomes, r, rest); }
  }

  lemma RefusedKeeps(s: State)
    requires Inv(s) && s.running.None? && s.queue != [] && s.disposed
    ensures Inv(Start(s, false))
  {
    var s' := Start(s, false);
    forall u: nat | u < |s'.generations| ensures GenerationAt(s', u) { assert GenerationAt(s, u); }
    RefusedCalls(s);
  }

  lemma OpenKeeps(s: State, aborted: bool)
    requires Inv(s) && Enabled(s, Begin(aborted)) && !s.disposed
    ensures Inv(OpenCandidate(s.(queue := s.queue[1..]), s.queue[0], aborted))
  {
    var s' := OpenCandidate(s.(queue := s.queue[1..]), s.queue[0], aborted);
    forall u: nat | u < |s'.generations| ensures GenerationAt(s', u) {
      if u < |s.generations| { assert GenerationAt(s, u); }
    }
    forall i: nat ensures OpenedAt(s', i) { assert OpenedAt(s, i); }
  }

  lemma StartKeeps(s: State, aborted: bool)
    requires Inv(s) && Enabled(s, Begin(aborted))
    ensures Inv(Start(s, aborted))
  {
    if s.disposed {
      RefusedKeeps(s);
    } else if s.queue[0].Reconnect? && Live(s) {
      var s' := Start(s, aborted);
      forall u: nat | u < |s'.generations| ensures GenerationAt(s', u) { assert GenerationAt(s, u); }
      CallsSame(s, s');
    } else {
      OpenKeeps(s, aborted);
    }
  }

  predicate Promotes(s: State)
    requires Enabled(s, Resume)
  {
    var generation := s.generations[s.running.value.generation];
    generation.ack.Resolved? && !s.disposed && !generation.retired
  }

  /** The driver after a candidate failed, before the failure is reported to whoever asked for it. */
  function Abandoned(s: State): State
    requires Enabled(s, Resume)
  {
    var g := s.running.value.generation;
    s.(running := None, candidate := None, generations := s.generations[g := s.generations[g].(retired := true)])
  }

  lemma FailedFinishes(s: State)
    requires Inv(s) && Enabled(s, Resume) && !Promotes(s)
    ensures Finish(s) == Failed(Abandoned(s), s.running.value.request,
                                var ack := s.generations[s.running.value.generation].ack;
                                if ack.Rejected? then ack.retryable else true)
  {
    var g := s.running.value.generation;
    assert GenerationAt(s, g);
    assert s.generations[g].ack.Rejected? ==> Abandoned(s).generations == s.generations;
  }

  lemma AbandonedStreams(s: State)
    requires Inv(s) && Enabled(s, Resume) && !Promotes(s)
    ensures Streams(Abandoned(s)) && Candidate(Abandoned(s)) && Promotions(Abandoned(s))
  {
    var s' := Abandoned(s);
    assert GenerationAt(s, s.running.value.generation);
    forall u: nat | u < |s'.generations| ensures GenerationAt(s', u) { assert GenerationAt(s, u); }
  }

  lemma FailedUserKeeps(s: State)
    requires Inv(s) && Enabled(s, Resume) && !Promotes(s) && !s.running.value.request.Reconnect?
    ensures Inv(Finish(s))
  {
    FailedFinishes(s);
    AbandonedStreams(s);
    StreamsSame(Abandoned(s), Finish(s));
    forall i: nat ensures OpenedAt(Finish(s), i) { assert OpenedAt(s, i); }
    FoldedSnoc(s.history.calls, s.history.outcomes, false);
  }

  lemma FailedReconnectKeeps(s: State)
    requires Inv(s) && Enabled(s, Resume) && !Promotes(s) && s.running.value.request.Reconnect?
    ensures Inv(Finish(s))
  {
    FailedFinishes(s);
    AbandonedStreams(s);
    StreamsSame(Abandoned(s), Finish(s));
    AbandonedCalls(s);
    CallsSame(Abandoned(s), Finish(s));
  }

  lemma AbandonedCalls(s: State)
    requires Calls(s) && Enabled(s, Resume) && s.running.value.request.Reconnect?
    ensures Calls(Abandoned(s))
  {
    forall i: nat ensures OpenedAt(Abandoned(s), i) { assert OpenedAt(s, i); }
  }

  /** The driver after a promotion, before whoever asked for it learns of it. */
  function Promoted(s: State): State
    requires Enabled(s, Resume)
  {
    Promote(s.(running := None, candidate := None), s.running.value.generation)
  }

  lemma PromotedStreams(s: State)
    requires Inv(s) && Enabled(s, Resume) && Promotes(s)
    ensures Streams(Promoted(s)) && Candidate(Promoted(s))
  {
    var s' := Promoted(s);
    assert GenerationAt(s, s.running.value.generation);
    forall u: nat | u < |s'.generations| ensures GenerationAt(s', u) { assert GenerationAt(s, u); }
  }

  lemma PromotedPromotions(s: State)
    requires Inv(s) && Enabled(s, Resume) && Promotes(s)
    ensures Promotions(Promoted(s))
  {
    assert Promoted(s).history.promoted == s.history.promoted + [s.running.value.generation];
  }

  lemma PromotedCalls(s: State, i: nat)
    requires Inv(s) && Enabled(s, Resume) && Promotes(s)
    ensures OpenedAt(Finish(s), i)
  {
    assert OpenedAt(s, i);
    assert Finish(s).history.promoted == s.history.promoted + [s.running.value.generation];
  }

  lemma PromotedDesired(s: State)
    requires Inv(s) && Enabled(s, Resume) && Promotes(s)
    ensures var h := Finish(s).history;
            && |h.outcomes| <= |h.calls| && h.calls[|h.outcomes|..] == Users(s.queue)
            && Finish(s).desired == Folded(h.calls, h.outcomes)
  {
    var h, t := s.history, s.running.value;
    PromotedFinish(s);
    if t.request.Reconnect? {
      assert [] + Users(s.queue) == Users(s.queue);
    } else {
      NextCall(h.calls, |h.outcomes|, t.request, Users(s.queue));
      FoldedSnoc(h.calls, h.outcomes, true);
    }
  }

  lemma PromotedFold(s: State)
    requires Inv(s) && Enabled(s, Resume) && Promotes(s)
    ensures Calls(Finish(s))
  {
    forall i: nat ensures OpenedAt(Finish(s), i) { PromotedCalls(s, i); }
    PromotedDesired(s);
    assert Finish(s).running.None? && Finish(s).queue == s.queue;
    assert InFlight(None) + Users(s.queue) == Users(s.queue);
  }

  lemma NextCall(calls: seq<Request>, n: nat, r: Request, rest: seq<Request>)
    requires n <= |calls| && calls[n..] == [r] + rest
    ensures n < |calls| && calls[n] == r && calls[n + 1..] == rest
  {
    assert calls[n] == calls[n..][0];
    assert calls[n + 1..] == calls[n..][1..];
  }

  lemma PromotedFinish(s: State)
    requires Inv(s) && Enabled(s, Resume) && Promotes(s)
    ensures Finish(s) == Succeeded(Promoted(s), s.running.value.request)
  {
  }

  /** What reports an outcome, or resets the backoff, leaves the streams alone. */
  lemma StreamsSame(s: State, s': State)
    requires Streams(s) && Candidate(s) && Promotions(s)
    requires s' == s.(attempt := s'.attempt, timers := s'.timers, history := s'.history)
    requires s'.history.promoted == s.history.promoted && s'.history.delivered == s.history.delivered
    ensures Streams(s') && Candidate(s') && Promotions(s')
  {
    forall u: nat | u < |s'.generations| ensures GenerationAt(s', u) { assert GenerationAt(s, u); }
  }

  lemma PromotedReconnecting(s: State)
    requires Inv(s) && Enabled(s, Resume) && Promotes(s)
    ensures Reconnecting(Finish(s))
  {
    PromotedFinish(s);
  }

  lemma PromotedKeeps(s: State)
    requires Inv(s) && Enabled(s, Resume) && Promotes(s)
    ensures Inv(Finish(s))
  {
    PromotedFinish(s);
    PromotedStreams(s);
    PromotedPromotions(s);
    StreamsSame(Promoted(s), Finish(s));
    PromotedFold(s);
    PromotedReconnecting(s);
  }

  lemma StepKeeps(s: State, a: Action)
    requires Inv(s) && Enabled(s, a)
    ensures Inv(Step(s, a))
  {
    match a
    case Call(r) => CallKeeps(s, r);
    case Begin(aborted) => StartKeeps(s, aborted);
    case Frame(g, acknowledges) => FrameKeeps(s, g, acknowledges);
    case Settle(g, reason, retryable) => SettleKeeps(s, g, reason, retryable);
    case FailWait(g, retryable) => FailKeeps(s, g, retryable);
    case Resume =>
      if Promotes(s) {
        PromotedKeeps(s);
      } else if s.running.value.request.Reconnect? {
        FailedReconnectKeeps(s);
      } else {
        FailedUserKeeps(s);
      }
    case DelayElapsed => DelayKeeps(s);
    case Dispose => DisposeKeeps(s);
  }

  lemma {:induction false} RunKeeps(s: State, actions: seq<Action>)
    requires Inv(s) && Possible(s, actions)
    ensures Inv(Run(s, actions))
    decreases |actions|
  {
    if actions != [] {
      StepKeeps(s, actions[0]);
      RunKeeps(Step(s, actions[0]), actions[1..]);
    }
  }

  /** A state some run of a fresh driver leads to. */
  ghost predicate Reachable(s: State) {
    exists actions: seq<Action> :: Reaches(s, actions)
  }

  ghost predicate Reaches(s: State, actions: seq<Action>) {
    var s0 := Initial(s.backoffBase, s.backoffCap);
    Possible(s0, actions) && s == Run(s0, actions)
  }

  lemma ReachableInv(s: State)
    requires Reachable(s)
    ensures Inv(s)
  {
    var actions :| Reaches(s, actions);
    InitialInv(s.backoffBase, s.backoffCap);
    RunKeeps(Initial(s.backoffBase, s.backoffCap), actions);
  }

  // ----- Mutations are serialisable

  /**
   Calls settle in call order. One resolves exactly when the generation opened for it was promoted, and the
   desired set, which is the filter of the active stream, is the resolved calls applied in call order.
   */
  lemma MutationsAreSerialisable(s: State)
    requires Reachable(s)
    ensures var h := s.history;
            && |h.outcomes| <= |h.calls|
            && (forall i :: 0 <= i < |h.outcomes| ==> (h.outcomes[i] <==> WasPromoted(h, i)))
            && s.desired == Folded(h.calls, h.outcomes)
            && (s.active.Some? ==> Live(s) && s.generations[s.active.value].target == s.desired)
    ensures s.running.None? && s.queue == [] ==> |s.history.outcomes| == |s.history.calls|
  {
    ReachableInv(s);
    forall i | 0 <= i < |s.history.outcomes| ensures s.history.outcomes[i] <==> WasPromoted(s.history, i) {
      assert OpenedAt(s, i);
    }
  }

  // ----- Open before retire, and gating

  /** Only the active generation and the candidate are not retired. */
  lemma OnlyActiveAndCandidateLive(s: State, g: nat)
    requires Reachable(s) && g < |s.generations| && !s.generations[g].retired
    ensures s.active == Some(g) || (s.running.Some? && s.running.value.generation == g)
  {
    ReachableInv(s);
    assert GenerationAt(s, g);
  }

  lemma ActiveChangesOnlyByPromotion(s: State, a: Action)
    requires Enabled(s, a) && s.active.Some?
    requires !a.Dispose? && !(a.Settle? && a.generation == s.active.value)
    ensures Step(s, a).active == s.active
            || (a.Resume? && Promotes(s) && Step(s, a).active == Some(s.running.value.generation))
  {
  }

  lemma PromotionRetires(s: State)
    requires Inv(s) && Enabled(s, Resume) && Promotes(s) && s.active.Some?
    ensures s.running.value.generation > s.active.value && s.active.value < |Finish(s).generations|
    ensures Finish(s).generations[s.active.value].retired
  {
    PromotedFinish(s);
    var promoted := s.history.promoted;
    assert promoted[|promoted| - 1] == s.active.value;
  }

  /** No step but the end of the active stream itself, or disposal, leaves the driver without a live stream. */
  lemma OpenBeforeRetire(s: State, a: Action)
    requires Reachable(s) && Enabled(s, a) && s.active.Some?
    requires !a.Dispose? && !(a.Settle? && a.generation == s.active.value)
    ensures Live(Step(s, a))
    ensures Step(s, a).active != s.active ==>
              && Step(s, a).active.value > s.active.value && s.active.value < |Step(s, a).generations|
              && Step(s, a).generations[s.active.value].retired
  {
    ReachableInv(s);
    StepKeeps(s, a);
    ActiveChangesOnlyByPromotion(s, a);
    if a.Resume? && Promotes(s) { PromotionRetires(s); }
  }

  /** Promoted generations increase, and no frame of a generation is delivered after a newer one was promoted. */
  lemma PromotionsGateFrames(s: State)
    requires Reachable(s)
    ensures Ascending(s.history.promoted)
    ensures forall d, k :: d in s.history.delivered && 0 <= k < d.promotions ==>
              k < |s.history.promoted| && s.history.promoted[k] <= d.generation
  {
    ReachableInv(s);
    forall d, k | d in s.history.delivered && 0 <= k < d.promotions
      ensures k < |s.history.promoted| && s.history.promoted[k] <= d.generation
    {
      assert Gated(s.history.promoted, d);
    }
  }

  // ----- Disposal

  lemma {:induction false} NothingOpensAfterDisposal(s: State, actions: seq<Action>)
    requires s.disposed && Possible(s, actions)
    ensures Run(s, actions).disposed && |Run(s, actions).generations| == |s.generations|
    decreases |actions|
  {
    if actions != [] {
      NothingOpensAfterDisposal(Step(s, actions[0]), actions[1..]);
    }
  }

  /** Lets a disposed driver finish its running task and every queued one. */
  ghost function Drained(s: State): (r: State)
    requires Inv(s) && s.disposed
    ensures Inv(r) && r.disposed && r.running.None? && r.queue == [] && r.history.calls == s.history.calls
    decreases 2 * |s.queue| + (if s.running.Some? then 1 else 0)
  {
    if s.running.Some? then
      StepKeeps(s, Resume);
      Drained(Step(s, Resume))
    else if s.queue != [] then
      StepKeeps(s, Begin(false));
      Drained(Step(s, Begin(false)))
    else s
  }

  /** Disposal never hangs: the running task can finish, every queued call settles, and every stream ends retired. */
  lemma DisposalSettlesEverything(s: State)
    requires Reachable(s) && s.disposed
    ensures s.running.Some? ==> Enabled(s, Resume)
    ensures Inv(s)
    ensures |Drained(s).history.outcomes| == |s.history.calls|
    ensures forall g: nat :: g < |Drained(s).generations| ==> Drained(s).generations[g].retired
  {
    ReachableInv(s);
    var end := Drained(s);
    forall g: nat | g < |end.generations| ensures end.generations[g].retired {
      assert GenerationAt(end, g);
    }
  }

  // ----- Reconnection

  /** While a stream lost to its transport has been neither replaced nor given up, a reconnection is under way. */
  lemma NoReconnectForgotten(s: State)
    requires Reachable(s) && !s.disposed && s.history.owed
    ensures ReconnectPending(s)
  {
    ReachableInv(s);
  }

  /** A step that replaces the lost stream, or gives it up. */
  ghost predicate Relieves(s: State, a: Action)
    requires Enabled(s, a)
  {
    && a.Resume?
    && (Promotes(s) || (s.running.value.request.Reconnect?
                        && s.generations[s.running.value.generation].ack == Rejected(false)))
  }

  ghost predicate RelievedIn(s: State, actions: seq<Action>)
    requires Possible(s, actions)
    decreases |actions|
  {
    actions != [] && (Relieves(s, actions[0]) || RelievedIn(Step(s, actions[0]), actions[1..]))
  }

  lemma OwedUnlessRelieved(s: State, a: Action)
    requires Inv(s) && Enabled(s, a) && s.history.owed && !Relieves(s, a)
    ensures Step(s, a).history.owed
  {
    if a.Resume? { FailedFinishes(s); }
  }

  lemma {:induction false} StaysOwed(s: State, actions: seq<Action>)
    requires Inv(s) && Possible(s, actions) && s.history.owed && !RelievedIn(s, actions)
    ensures Inv(Run(s, actions)) && Run(s, actions).history.owed
    decreases |actions|
  {
    if actions != [] {
      StepKeeps(s, actions[0]);
      OwedUnlessRelieved(s, actions[0]);
      StaysOwed(Step(s, actions[0]), actions[1..]);
    }
  }

  /**
   After the loss of the active stream to its transport, a reconnection is under way at every later point until a
   stream is promoted, a reconnection fails for good, or the driver is disposed.
   */
  lemma LostStreamIsPursued(s: State, g: nat, retryable: bool, later: seq<Action>)
    requires Reachable(s) && s.active == Some(g) && Enabled(s, Settle(g, Closed, retryable))
    requires var s' := Step(s, Settle(g, Closed, retryable)); Possible(s', later) && !RelievedIn(s', later)
    ensures var end := Run(Step(s, Settle(g, Closed, retryable)), later);
            end.history.owed && end.active.None? && (end.disposed || ReconnectPending(end))
  {
    ReachableInv(s);
    LostStreamIsOwed(s, g, retryable);
    StepKeeps(s, Settle(g, Closed, retryable));
    StaysOwed(Step(s, Settle(g, Closed, retryable)), later);
  }

  /** The loss of the active stream to its transport schedules a reconnection, in every reachable state. */
  lemma LostStreamIsOwed(s: State, g: nat, retryable: bool)
    requires Reachable(s) && s.active == Some(g)
    ensures Enabled(s, Settle(g, Closed, retryable))
    ensures var s' := Step(s, Settle(g, Closed, retryable));
            && s'.active.None? && s'.history.owed && s'.timers == s.timers + 1
            && s'.history.delays == s.history.delays + [Backoff(s.backoffBase, s.backoffCap, s.attempt + 1)]
  {
    ReachableInv(s);
    assert GenerationAt(s, g);
  }

  /** What is owed stays owed until a stream is promoted or a reconnection fails for good. */
  lemma OwedUntilReplacedOrGivenUp(s: State, a: Action)
    requires Reachable(s) && Enabled(s, a) && s.history.owed && !Step(s, a).history.owed
    ensures a.Resume?
    ensures Step(s, a).active.Some? || (s.running.value.request.Reconnect?
              && s.generations[s.running.value.generation].ack == Rejected(false))
  {
    ReachableInv(s);
  }

  lemma {:induction false} PowersGrow(n: nat, m: nat)
    requires n <= m
    ensures Power2(n) <= Power2(m)
    ensures Power2(m) > m
  {
    if n < m {
      PowersGrow(n, m - 1);
    } else if m > 0 {
      PowersGrow(m - 1, m - 1);
    }
  }

  lemma BackoffGrows(base: nat, cap: nat, i: nat, j: nat)
    requires 1 <= i <= j
    ensures Backoff(base, cap, i) <= Backoff(base, cap, j) <= cap
  {
    PowersGrow(i - 1, j - 1);
    ProductsGrow(base, Power2(i - 1), Power2(j - 1));
  }

  lemma ProductsGrow(a: nat, b: nat, c: nat)
    requires b <= c
    ensures a * b <= a * c
    ensures a > 0 ==> a * b >= b
  {
    if a > 0 {
      assert a * b == (a - 1) * b + b;
    }
  }

  lemma BackoffReachesCap(base: nat, cap: nat, i: nat)
    requires base > 0 && i > cap
    ensures Backoff(base, cap, i) == cap
  {
    PowersGrow(i - 1, i - 1);
    ProductsGrow(base, Power2(i - 1), Power2(i - 1));
  }

  /** Delays between resets never shrink, never exceed the cap, and reach it after at most `cap` attempts. */
  lemma BackoffGrowsToItsCap(s: State)
    requires Reachable(s)
    ensures var d := s.history.delays;
            && |d| == s.attempt
            && (forall i, j :: 0 <= i <= j < |d| ==> d[i] <= d[j] <= s.backoffCap)
            && (s.backoffBase > 0 ==> forall i :: s.backoffCap <= i < |d| ==> d[i] == s.backoffCap)
  {
    ReachableInv(s);
    var d := s.history.delays;
    forall i, j | 0 <= i <= j < |d| ensures d[i] <= d[j] <= s.backoffCap {
      BackoffGrows(s.backoffBase, s.backoffCap, i + 1, j + 1);
    }
    forall i | s.backoffCap <= i < |d| && s.backoffBase > 0 ensures d[i] == s.backoffCap {
      BackoffReachesCap(s.backoffBase, s.backoffCap, i + 1);
    }
  }

  // ----- The driver as a class

  class Driver {
    const backoffBase: nat
    const backoffCap: nat
    var generations: seq<Generation>
    var active: Option<nat>
    var candidate: Option<nat>
    var desired: set<URI>
    var queue: seq<Request>
    var running: Option<Task>
    var attempt: nat
    var timers: nat
    var disposed: bool
    ghost var history: History
    ghost var log: seq<Action>

    ghost function Fields(): State
      reads this
    {
      State(backoffBase, backoffCap, generations, active, candidate, desired, queue, running, attempt, timers,
            disposed, history)
    }

    /** The actions of the log have led from a new driver to this one. */
    ghost predicate Valid()
      reads this
    {
      H.History(Advance, Initial(backoffBase, backoffCap), log, Fields())
    }

    constructor (backoffBase: nat, backoffCap: nat)
      ensures Valid() && log == [] && Fields() == Initial(backoffBase, backoffCap)
    {
      this.backoffBase, this.backoffCap := backoffBase, backoffCap;
      generations, active, candidate, desired, queue, running := [], None, None, {}, [], None;
      attempt, timers, disposed := 0, 0, false;
      history, log := History([], [], map[], [], [], [], false), [];
      H.NoHistory(Advance, Initial(backoffBase, backoffCap));
    }

    /** A call of the consumer: its task joins the single queue. */
    method Enqueue(request: Request)
      requires Enabled(Fields(), Call(request))
      modifies `queue, `history
      ensures Fields() == Step(old(Fields()), Call(request))
    {
      queue := queue + [request];
      history := history.(calls := history.calls + [request]);
    }

    /** The queue starts its next task. */
    method StartNext(aborted: bool)
      requires Enabled(Fields(), Begin(aborted))
      modifies `generations, `candidate, `queue, `running, `attempt, `history
      ensures Fields() == Step(old(Fields()), Begin(aborted))
    {
      var request := queue[0];
      queue := queue[1..];
      if disposed {
        history := Settled(history, request, false);
        return;
      }
      if request.Reconnect? && active.Some? && active.value < |generations|
         && generations[active.value].acknowledged && !generations[active.value].retired {
        attempt, history := 0, history.(delays := []);
        return;
      }
      AllocateGeneration(request, aborted);
    }

    method AllocateGeneration(request: Request, aborted: bool)
      modifies `generations, `candidate, `running, `history
      ensures Fields() == OpenCandidate(old(Fields()), request, aborted)
    {
      var target := desired;
      if request.Subscribe? {
        target := target + {request.uri};
      } else if request.Unsubscribe? {
        target := target - {request.uri};
      }
      var number := |generations|;
      generations := generations + [Generation(target, false, false, Waiting)];
      if !request.Reconnect? {
        history := history.(openedFor := history.openedFor[|history.outcomes| := number]);
      }
      running := Some(Task(request, number));
      if aborted {
        FailCandidate(number, false);
      } else {
        candidate := Some(number);
      }
    }

    method FailCandidate(number: nat, retryable: bool)
      requires number < |generations|
      modifies `generations
      ensures Fields() == FailGeneration(old(Fields()), number, retryable)
    {
      var generation := generations[number];
      if generation.acknowledged || generation.retired {
        return;
      }
      generations := generations[number := generation.(retired := true, ack := Rejected(retryable))];
    }

    method ReceiveFrame(number: nat, acknowledges: bool)
      requires Enabled(Fields(), Frame(number, acknowledges))
      modifies `generations, `history
      ensures Fields() == Step(old(Fields()), Frame(number, acknowledges))
    {
      var generation := generations[number];
      if generation.retired {
        return;
      }
      if !generation.acknowledged {
        if acknowledges {
          generations := generations[number := generation.(acknowledged := true, ack := Resolved)];
        } else {
          generations := generations[number := generation.(retired := true, ack := Rejected(false))];
        }
        return;
      }
      history := history.(delivered := history.delivered + [Delivery(number, |history.promoted|)]);
    }

    method ReceiveSettle(number: nat, reason: SettleReason, retryable: bool)
      requires Enabled(Fields(), Settle(number, reason, retryable))
      modifies `generations, `active, `attempt, `timers, `history
      ensures Fields() == Step(old(Fields()), Settle(number, reason, retryable))
    {
      var generation := generations[number];
      if generation.retired {
        return;
      }
      generations := generations[number := generation.(retired := true)];
      if !generation.acknowledged {
        generations :=
          generations[number := generation.(retired := true, ack := Rejected(reason.Closed? || retryable))];
        return;
      }
      if active == Some(number) {
        active := None;
        if reason.Closed? {
          history := history.(owed := true);
          Schedule();
        }
      }
    }

    method Schedule()
      modifies `attempt, `timers, `history
      ensures Fields() == ScheduleReconnect(old(Fields()))
    {
      if disposed {
        return;
      }
      attempt := attempt + 1;
      timers := timers + 1;
      history := history.(delays := history.delays + [Backoff(backoffBase, backoffCap, attempt)]);
    }

    /** The task that waited for its acknowledgement goes on. */
    method ResumeTask()
      requires Enabled(Fields(), Resume)
      modifies `generations, `active, `candidate, `desired, `running, `attempt, `timers, `history
      ensures Fields() == Step(old(Fields()), Resume)
    {
      var task := running.value;
      var generation := generations[task.generation];
      running := None;
      if candidate == Some(task.generation) {
        candidate := None;
      }
      if generation.ack.Rejected? {
        Conclude(task.request, false, generation.ack.retryable);
      } else if disposed || generation.retired {
        generations := generations[task.generation := generation.(retired := true)];
        Conclude(task.request, false, true);
      } else {
        Install(task.generation);
        Conclude(task.request, true, false);
      }
    }

    method Install(number: nat)
      requires number < |generations|
      modifies `generations, `active, `desired, `history
      ensures Fields() == Promote(old(Fields()), number)
    {
      var previous := active;
      active := Some(number);
      desired := generations[number].target;
      history := history.(promoted := history.promoted + [number], owed := false);
      if previous.Some? && previous.value < |generations| {
        generations := generations[previous.value := generations[previous.value].(retired := true)];
      }
    }

    method Conclude(request: Request, ok: bool, retryable: bool)
      modifies `attempt, `timers, `history
      ensures Fields() == if ok then Succeeded(old(Fields()), request) else Failed(old(Fields()), request, retryable)
    {
      if !request.Reconnect? {
        history := Settled(history, request, ok);
      } else if ok {
        attempt, history := 0, history.(delays := []);
      } else if retryable {
        Schedule();
      } else {
        attempt, history := 0, history.(owed := false, delays := []);
      }
    }

    method ElapseDelay()
      requires Enabled(Fields(), DelayElapsed)
      modifies `timers, `queue
      ensures Fields() == Step(old(Fields()), DelayElapsed)
    {
      timers := timers - 1;
      if !disposed {
        queue := queue + [Reconnect];
      }
    }

    method Dispose()
      modifies `generations, `active, `candidate, `disposed
      ensures Fields() == Step(old(Fields()), Action.Dispose)
    {
      disposed := true;
      var pending := candidate;
      candidate := None;
      if pending.Some? && pending.value < |generations| {
        FailCandidate(pending.value, false);
      }
      var last := active;
      active := None;
      if last.Some? && last.value < |generations| && !generations[last.value].retired {
        generations := generations[last.value := generations[last.value].(retired := true)];
      }
    }

    method Apply(a: Action)
      requires Enabled(Fields(), a)
      modifies `generations, `active, `candidate, `desired, `queue, `running, `attempt, `timers, `disposed, `history
      ensures Fields() == Step(old(Fields()), a)
    {
      match a
      case Call(request) => Enqueue(request);
      case Begin(aborted) => StartNext(aborted);
      case Frame(number, acknowledges) => ReceiveFrame(number, acknowledges);
      case Settle(number, reason, retryable) => ReceiveSettle(number, reason, retryable);
      case FailWait(number, retryable) => FailCandidate(number, retryable);
      case Resume => ResumeTask();
      case DelayElapsed => ElapseDelay();
      case Dispose => Dispose();
    }

    /** Whatever can happen to the driver, with its place in the history. */
    method Handle(a: Action)
      requires Valid() && Enabled(Fields(), a)
      modifies this
      ensures Valid() && log == old(log) + [a] && Fields() == Step(old(Fields()), a)
    {
      Apply(a);
      H.HistoryGrows(Advance, Initial(backoffBase, backoffCap), log, old(Fields()), a, Fields());
      log := log + [a];
    }

    /** Every driver's resource set, and the filter of its stream, is its resolved calls applied in call order. */
    lemma FollowsResolvedCalls()
      requires Valid()
      ensures |history.outcomes| <= |history.calls| && desired == Folded(history.calls, history.outcomes)
      ensures active.Some? ==> Live(Fields()) && generations[active.value].target == desired
    {
      HistoryIsRun(Initial(backoffBase, backoffCap), log, Fields());
      assert Reaches(Fields(), log);
      MutationsAreSerialisable(Fields());
    }
  }
}
