/**
 The registry of served subscriptions: which streams an event goes to, and how each stream ends exactly once.
 A registration is numbered; the registry maps a key, the connection and the request id, to the latest one.
 */
module SubscriptionHub {
  import opened Options
  import H = Histories

  datatype Key = Key(connection: string, subscription: int)

  /** `deadline` says an expiry timer is armed; `completed` and `expired` count the calls of those callbacks. */
  datatype Record = Record(key: Key, topics: set<string>, hasExpire: bool,
                           settled: bool, deadline: bool, completed: nat, expired: nat)

  datatype State = State(records: seq<Record>, registry: map<Key, nat>, disposed: bool,
                         // History: the registrations each event was delivered to.
                         deliveries: seq<set<nat>>)

  const EMPTY := State([], map[], false, [])

  datatype Action =
    | Register(key: Key, topics: set<string>, timed: bool, hasExpire: bool)
    | Complete(registration: nat)
    | Close(registration: nat)
    | TimerFires(registration: nat)
    | FanOut(topic: string)
    | Dispose

  predicate Enabled(s: State, a: Action) {
    match a
    case Complete(r) => r < |s.records|
    case Close(r) => r < |s.records|
    case TimerFires(r) => r < |s.records| && s.records[r].deadline
    case _ => true
  }

  // ----- The steps

  /** Removing the entry of a key clears the timer of whatever registration the key leads to. */
  function Removed(s: State, key: Key): State {
    if key !in s.registry then s
    else
      var r := s.registry[key];
      s.(registry := s.registry - {key},
         records := if r < |s.records| then s.records[r := s.records[r].(deadline := false)] else s.records)
  }

  /** The first of completion and closing settles a registration; completing calls its entry. */
  function Settled(s: State, r: nat, completes: bool): State
    requires r < |s.records|
  {
    if s.records[r].settled then s
    else
      var key := s.records[r].key;
      var s' := Removed(s.(records := s.records[r := s.records[r].(settled := true)]), key);
      if completes && r < |s'.records|
      then s'.(records := s'.records[r := s'.records[r].(completed := s'.records[r].completed + 1)]) else s'
  }

  function Fired(s: State, r: nat): State
    requires r < |s.records|
  {
    var s' := Settled(s.(records := s.records[r := s.records[r].(deadline := false)]), r, false);
    if r >= |s'.records| then s'
    else
      var record := s'.records[r];
      s'.(records := s'.records[r := if record.hasExpire then record.(expired := record.expired + 1)
                                     else record.(completed := record.completed + 1)])
  }

  function Targets(s: State, topic: string): set<nat> {
    set key | key in s.registry && s.registry[key] < |s.records| && topic in s.records[s.registry[key]].topics ::
      s.registry[key]
  }

  function Quiet(s: State): seq<Record> {
    seq(|s.records|, r requires 0 <= r < |s.records| =>
      if s.records[r].key in s.registry && s.registry[s.records[r].key] == r
      then s.records[r].(deadline := false) else s.records[r])
  }

  function Step(s: State, a: Action): State
    requires Enabled(s, a)
  {
    match a
    case Register(key, topics, timed, hasExpire) =>
      s.(records := s.records + [Record(key, topics, hasExpire, false, timed, 0, 0)],
         registry := s.registry[key := |s.records|])
    case Complete(r) => Settled(s, r, true)
    case Close(r) => Settled(s, r, false)
    case TimerFires(r) => Fired(s, r)
    case FanOut(topic) =>
      if s.disposed then s else s.(deliveries := s.deliveries + [Targets(s, topic)])
    case Dispose => s.(records := Quiet(s), registry := map[], disposed := true)
  }

  predicate Possible(s: State, actions: seq<Action>)
    decreases |actions|
  {
    actions == [] || (Enabled(s, actions[0]) && Possible(Step(s, actions[0]), actions[1..]))
  }

  function Run(s: State, actions: seq<Action>): State
    requires Possible(s, actions)
    decreases |actions|
  {
    if actions == [] then s else Run(Step(s, actions[0]), actions[1..])
  }

  /** The step of an action that can happen. */
  function Advance(s: State, a: Action): Option<State> {
    if Enabled(s, a) then Some(Step(s, a)) else None
  }

  lemma {:induction false} HistoryIsRun(s: State, log: seq<Action>, now: State)
    requires H.History(Advance, s, log, now)
    ensures Possible(s, log) && Run(s, log) == now
    decreases |log|
  {
    H.HistoryFirst(Advance, s, log, now);
    if log != [] { HistoryIsRun(Step(s, log[0]), log[1..], now); }
  }

  /** A key is not registered again while an earlier registration of it is not settled. */
  predicate Unshared(s: State, a: Action) {
    a.Register? ==>
      !s.disposed && forall r :: 0 <= r < |s.records| && s.records[r].key == a.key ==> s.records[r].settled
  }

  ghost predicate AllUnshared(s: State, actions: seq<Action>)
    requires Possible(s, actions)
    decreases |actions|
  {
    actions == [] || (Unshared(s, actions[0]) && AllUnshared(Step(s, actions[0]), actions[1..]))
  }

  // ----- One ending each

  predicate Registered(s: State, r: nat) {
    r < |s.records| && s.records[r].key in s.registry && s.registry[s.records[r].key] == r
  }

  /** Registered until settled, then ended by at most one callback, with no timer left to call another. */
  ghost predicate RecordAt(s: State, r: nat)
    requires r < |s.records|
  {
    var record := s.records[r];
    && (!s.disposed ==> (Registered(s, r) <==> !record.settled))
    && (record.deadline ==> !record.settled && !s.disposed)
    && record.completed + record.expired <= 1
    && (!record.settled ==> record.completed == 0 && record.expired == 0)
  }

  ghost predicate Inv(s: State) {
    && (forall r: nat :: r < |s.records| ==> RecordAt(s, r))
    && (forall key :: key in s.registry ==> s.registry[key] < |s.records| && s.records[s.registry[key]].key == key)
    && (s.disposed ==> s.registry == map[])
  }

  lemma SettledKeeps(s: State, r: nat, completes: bool)
    requires Inv(s) && r < |s.records|
    ensures Inv(Settled(s, r, completes))
  {
    assert RecordAt(s, r);
    var s' := Settled(s, r, completes);
    forall u: nat | u < |s'.records| ensures RecordAt(s', u) { assert RecordAt(s, u); }
  }

  lemma FiredKeeps(s: State, r: nat)
    requires Inv(s) && Enabled(s, TimerFires(r))
    ensures Inv(Fired(s, r))
  {
    assert RecordAt(s, r);
    var s' := Fired(s, r);
    forall u: nat | u < |s'.records| ensures RecordAt(s', u) { assert RecordAt(s, u); }
  }

  lemma StepKeeps(s: State, a: Action)
    requires Inv(s) && Enabled(s, a) && Unshared(s, a)
    ensures Inv(Step(s, a))
  {
    match a
    case Complete(r) => SettledKeeps(s, r, true);
    case Close(r) => SettledKeeps(s, r, false);
    case TimerFires(r) => FiredKeeps(s, r);
    case _ =>
      var s' := Step(s, a);
      forall u: nat | u < |s'.records| ensures RecordAt(s', u) { if u < |s.records| { assert RecordAt(s, u); } }
  }

  lemma {:induction false} RunKeeps(s: State, actions: seq<Action>)
    requires Inv(s) && Possible(s, actions) && AllUnshared(s, actions)
    ensures Inv(Run(s, actions))
    decreases |actions|
  {
    if actions != [] {
      StepKeeps(s, actions[0]);
      RunKeeps(Step(s, actions[0]), actions[1..]);
    }
  }

  /** Over every run without shared keys: registered exactly until settled, and ended by at most one callback. */
  lemma EachSubscriptionEndsOnce(actions: seq<Action>, r: nat)
    requires Possible(EMPTY, actions) && AllUnshared(EMPTY, actions) && r < |Run(EMPTY, actions).records|
    ensures var s := Run(EMPTY, actions);
            && (!s.disposed ==> (Registered(s, r) <==> !s.records[r].settled))
            && s.records[r].completed + s.records[r].expired <= 1
            && (s.records[r].settled ==> !s.records[r].deadline)
    ensures !CalledAfterEnd(EMPTY, actions, r)
  {
    RunKeeps(EMPTY, actions);
    assert RecordAt(Run(EMPTY, actions), r);
    UnsharedNeverCalledAfterEnd(EMPTY, actions, r);
    CalledAfterEndIff(actions, r);
  }

  /** An event goes to exactly the live subscriptions that asked for it. */
  lemma EventsReachLiveSubscriptions(actions: seq<Action>, topic: string, r: nat)
    requires Possible(EMPTY, actions) && AllUnshared(EMPTY, actions) && !Run(EMPTY, actions).disposed
    ensures var s := Run(EMPTY, actions);
            r in Targets(s, topic) <==> r < |s.records| && !s.records[r].settled && topic in s.records[r].topics
  {
    var s := Run(EMPTY, actions);
    RunKeeps(EMPTY, actions);
    if r < |s.records| {
      assert RecordAt(s, r);
      if Registered(s, r) { assert s.records[r].key in s.registry; }
    }
  }

  // ----- Shared keys

  predicate Leads(s: State) {
    forall key :: key in s.registry ==> s.registry[key] < |s.records| && s.records[s.registry[key]].key == key
  }

  function Calls(s: State, r: nat): nat
    requires r < |s.records|
  {
    s.records[r].completed + s.records[r].expired
  }

  /** In every run: nothing is called before the end, and after two calls there is no timer. */
  ghost predicate CallsAt(s: State, r: nat)
    requires r < |s.records|
  {
    && (!s.records[r].settled ==> Calls(s, r) == 0)
    && Calls(s, r) <= (if s.records[r].deadline then 1 else 2)
  }

  ghost predicate Sane(s: State) {
    Leads(s) && forall r: nat :: r < |s.records| ==> CallsAt(s, r)
  }

  lemma SettledStaysSane(s: State, r: nat, completes: bool)
    requires Sane(s) && r < |s.records|
    ensures Sane(Settled(s, r, completes))
  {
    var s' := Settled(s, r, completes);
    forall u: nat | u < |s'.records| ensures CallsAt(s', u) {
      SettledAt(s, r, completes, u);
      assert CallsAt(s, u);
    }
  }

  /** Ending a registration touches no other, except that it clears the timer its key leads to. */
  lemma SettledAt(s: State, r: nat, completes: bool, u: nat)
    requires r < |s.records| && u < |s.records|
    ensures var before, after := s.records[u], Settled(s, r, completes).records;
            var ends := u == r && !before.settled;
            && |after| == |s.records|
            && after[u].key == before.key && after[u].topics == before.topics && after[u].hasExpire == before.hasExpire
            && after[u].settled == (before.settled || u == r) && after[u].expired == before.expired
            && after[u].completed == before.completed + (if ends && completes then 1 else 0)
            && (after[u].deadline ==> before.deadline)
            && (ends ==> (after[u].deadline <==> before.deadline && !Registered(s, r)))
  {
  }

  lemma FiredStaysSane(s: State, r: nat)
    requires Sane(s) && Enabled(s, TimerFires(r))
    ensures Sane(Fired(s, r))
  {
    assert CallsAt(s, r);
    var s0 := s.(records := s.records[r := s.records[r].(deadline := false)]);
    forall u: nat | u < |s0.records| ensures CallsAt(s0, u) { assert CallsAt(s, u); }
    SettledStaysSane(s0, r, false);
    SettledAt(s0, r, false, r);
    var s1, s' := Settled(s0, r, false), Fired(s, r);
    forall u: nat | u < |s'.records| ensures CallsAt(s', u) { assert CallsAt(s1, u); }
  }

  lemma StepStaysSane(s: State, a: Action)
    requires Sane(s) && Enabled(s, a)
    ensures Sane(Step(s, a)) && |Step(s, a).records| >= |s.records|
  {
    match a
    case Complete(r) => SettledStaysSane(s, r, true);
    case Close(r) => SettledStaysSane(s, r, false);
    case TimerFires(r) => FiredStaysSane(s, r);
    case _ =>
      var s' := Step(s, a);
      forall u: nat | u < |s'.records| ensures CallsAt(s', u) { if u < |s.records| { assert CallsAt(s, u); } }
  }

  lemma {:induction false} RunStaysSane(s: State, actions: seq<Action>)
    requires Sane(s) && Possible(s, actions)
    ensures Sane(Run(s, actions)) && |Run(s, actions).records| >= |s.records|
    decreases |actions|
  {
    if actions != [] {
      StepStaysSane(s, actions[0]);
      RunStaysSane(Step(s, actions[0]), actions[1..]);
    }
  }

  /** In every run, keys shared or not, an event goes to the registrations their keys lead to. */
  lemma EventsReachRegistered(actions: seq<Action>, topic: string, r: nat)
    requires Possible(EMPTY, actions)
    ensures var s := Run(EMPTY, actions);
            r in Targets(s, topic) <==> Registered(s, r) && topic in s.records[r].topics
  {
    var s := Run(EMPTY, actions);
    RunStaysSane(EMPTY, actions);
    if Registered(s, r) { assert s.records[r].key in s.registry; }
  }

  /** The registration that an action ends, if it ends one. */
  function Ends(s: State, a: Action): Option<nat>
    requires Enabled(s, a)
  {
    match a
    case Complete(r) => if s.records[r].settled then None else Some(r)
    case Close(r) => if s.records[r].settled then None else Some(r)
    case TimerFires(r) => if s.records[r].settled then None else Some(r)
    case _ => None
  }

  lemma EndLoses(s: State, r: nat, completes: bool, u: nat)
    requires Leads(s) && r < |s.records| && Registered(s, u)
    ensures Registered(Settled(s, r, completes), u)
            <==> s.records[r].settled || s.records[r].key != s.records[u].key
  {
    SettledAt(s, r, completes, u);
  }

  lemma FiredLoses(s: State, r: nat, u: nat)
    requires Leads(s) && Enabled(s, TimerFires(r)) && Registered(s, u)
    ensures u < |Fired(s, r).records| && Fired(s, r).records[u].settled == (s.records[u].settled || r == u)
    ensures Registered(Fired(s, r), u) <==> s.records[r].settled || s.records[r].key != s.records[u].key
  {
    var s0 := s.(records := s.records[r := s.records[r].(deadline := false)]);
    SettledAt(s0, r, false, u);
    EndLoses(s0, r, false, u);
  }

  /**
   Exactly these actions lose a live subscription: disposal, a new registration of its key, and the end of another
   registration of its key.
   */
  lemma LiveSubscriptionLostIff(s: State, a: Action, u: nat)
    requires Leads(s) && Enabled(s, a) && Registered(s, u) && !s.records[u].settled
    ensures var s' := Step(s, a);
            u < |s'.records|
            && (!Registered(s', u) && !s'.records[u].settled
                <==> a.Dispose? || (a.Register? && a.key == s.records[u].key)
                     || (Ends(s, a).Some? && Ends(s, a).value != u
                         && s.records[Ends(s, a).value].key == s.records[u].key))
  {
    match a
    case Complete(r) =>
      SettledAt(s, r, true, u);
      EndLoses(s, r, true, u);
    case Close(r) =>
      SettledAt(s, r, false, u);
      EndLoses(s, r, false, u);
    case TimerFires(r) => FiredLoses(s, r, u);
    case _ =>
  }

  /** The end of a registration leaves its timer armed if and only if it had one and its key did not lead to it. */
  lemma EndingKeepsTimerIff(s: State, r: nat, completes: bool)
    requires Leads(s) && r < |s.records| && !s.records[r].settled
    ensures var s' := Settled(s, r, completes);
            |s'.records| == |s.records| && s'.records[r].settled
            && (s'.records[r].deadline <==> s.records[r].deadline && !Registered(s, r))
  {
    SettledAt(s, r, completes, r);
  }

  /** The registration is completed while its timer is armed and its key does not lead to it. */
  ghost predicate CompletedArmed(s: State, a: Action, r: nat) {
    a == Complete(r) && r < |s.records| && !s.records[r].settled && s.records[r].deadline && !Registered(s, r)
  }

  ghost predicate SomewhereCompletedArmed(s: State, actions: seq<Action>, r: nat)
    requires Possible(s, actions)
    decreases |actions|
  {
    actions != []
    && (CompletedArmed(s, actions[0], r) || SomewhereCompletedArmed(Step(s, actions[0]), actions[1..], r))
  }

  /** What one step does to the callbacks and the timer of a registration. */
  ghost predicate CallsMove(s: State, a: Action, r: nat)
    requires Enabled(s, a) && r < |s.records|
  {
    var s' := Step(s, a);
    && r < |s'.records| && (s.records[r].settled ==> s'.records[r].settled)
    && Calls(s', r)
       == Calls(s, r) + (if a == TimerFires(r) || (a == Complete(r) && !s.records[r].settled) then 1 else 0)
    && (s'.records[r].deadline ==> s.records[r].deadline && a != TimerFires(r))
    && (s'.records[r].settled && !s.records[r].settled ==> Ends(s, a) == Some(r))
    && (Ends(s, a) == Some(r) ==>
          s'.records[r].settled
          && (s'.records[r].deadline <==> s.records[r].deadline && !Registered(s, r) && !a.TimerFires?))
  }

  lemma FiredMove(s: State, u: nat, r: nat)
    requires Enabled(s, TimerFires(u)) && r < |s.records|
    ensures CallsMove(s, TimerFires(u), r)
  {
    var s0 := s.(records := s.records[u := s.records[u].(deadline := false)]);
    SettledAt(s0, u, false, r);
  }

  lemma CallStep(s: State, a: Action, r: nat)
    requires Enabled(s, a) && r < |s.records|
    ensures CallsMove(s, a, r)
  {
    match a
    case Complete(u) => SettledAt(s, u, true, r);
    case Close(u) => SettledAt(s, u, false, r);
    case TimerFires(u) => FiredMove(s, u, r);
    case _ =>
  }

  lemma NewlyRegistered(s: State, a: Action, r: nat)
    requires Enabled(s, a) && |s.records| <= r < |Step(s, a).records|
    ensures !Step(s, a).records[r].settled && a.Register?
  {
  }

  /** Without an armed timer there is nothing to fire. */
  lemma {:induction false} UnarmedNeverFires(s: State, actions: seq<Action>, r: nat)
    requires Sane(s) && Possible(s, actions) && r < |s.records| && !s.records[r].deadline
    ensures TimerFires(r) !in actions
    decreases |actions|
  {
    if actions != [] {
      CallStep(s, actions[0], r);
      StepStaysSane(s, actions[0]);
      UnarmedNeverFires(Step(s, actions[0]), actions[1..], r);
    }
  }

  lemma {:induction false} CallsAfterEnd(s: State, actions: seq<Action>, r: nat)
    requires Sane(s) && Possible(s, actions) && r < |s.records| && s.records[r].settled
    ensures r < |Run(s, actions).records|
    ensures Calls(Run(s, actions), r) == Calls(s, r) + (if TimerFires(r) in actions then 1 else 0)
    ensures !SomewhereCompletedArmed(s, actions, r)
    decreases |actions|
  {
    if actions != [] {
      var s' := Step(s, actions[0]);
      CallStep(s, actions[0], r);
      StepStaysSane(s, actions[0]);
      CallsAfterEnd(s', actions[1..], r);
      if actions[0] == TimerFires(r) { UnarmedNeverFires(s', actions[1..], r); }
    }
  }

  lemma {:induction false} CallsBeforeEnd(s: State, actions: seq<Action>, r: nat)
    requires Sane(s) && Possible(s, actions) && r < |Run(s, actions).records|
    requires r < |s.records| ==> !s.records[r].settled
    ensures Calls(Run(s, actions), r) == 2
            <==> SomewhereCompletedArmed(s, actions, r) && TimerFires(r) in actions
    decreases |actions|
  {
    if actions == [] {
      assert CallsAt(s, r);
    } else {
      var a, s' := actions[0], Step(s, actions[0]);
      StepStaysSane(s, a);
      if r < |s.records| {
        assert CallsAt(s, r);
        CallStep(s, a, r);
        if s'.records[r].settled {
          CallsAfterEnd(s', actions[1..], r);
          if !s'.records[r].deadline { UnarmedNeverFires(s', actions[1..], r); }
        } else {
          CallsBeforeEnd(s', actions[1..], r);
        }
      } else {
        if r < |s'.records| { NewlyRegistered(s, a, r); }
        CallsBeforeEnd(s', actions[1..], r);
      }
    }
  }

  /**
   In every run, keys shared or not, a registration is called back at most twice; and twice if and only if it was
   completed while its timer was armed and its key did not lead to it, and the timer then fired.
   */
  lemma CalledTwiceIff(actions: seq<Action>, r: nat)
    requires Possible(EMPTY, actions) && r < |Run(EMPTY, actions).records|
    ensures Calls(Run(EMPTY, actions), r) <= 2
    ensures Calls(Run(EMPTY, actions), r) == 2
            <==> SomewhereCompletedArmed(EMPTY, actions, r) && TimerFires(r) in actions
  {
    RunStaysSane(EMPTY, actions);
    assert CallsAt(Run(EMPTY, actions), r);
    CallsBeforeEnd(EMPTY, actions, r);
  }

  /** The registration ends, by completion or closing, while its timer is armed and its key does not lead to it. */
  ghost predicate EndedArmed(s: State, a: Action, r: nat) {
    && (a == Complete(r) || a == Close(r))
    && r < |s.records| && !s.records[r].settled && s.records[r].deadline && !Registered(s, r)
  }

  ghost predicate SomewhereEndedArmed(s: State, actions: seq<Action>, r: nat)
    requires Possible(s, actions)
    decreases |actions|
  {
    actions != []
    && (EndedArmed(s, actions[0], r) || SomewhereEndedArmed(Step(s, actions[0]), actions[1..], r))
  }

  /** The step calls the registration back although it has ended before. */
  ghost predicate CallsEnded(s: State, a: Action, r: nat)
    requires Enabled(s, a)
  {
    && r < |s.records| && s.records[r].settled
    && r < |Step(s, a).records| && Calls(Step(s, a), r) > Calls(s, r)
  }

  ghost predicate CalledAfterEnd(s: State, actions: seq<Action>, r: nat)
    requires Possible(s, actions)
    decreases |actions|
  {
    actions != [] && (CallsEnded(s, actions[0], r) || CalledAfterEnd(Step(s, actions[0]), actions[1..], r))
  }

  lemma {:induction false} EndedIsCalledIff(s: State, actions: seq<Action>, r: nat)
    requires Sane(s) && Possible(s, actions) && r < |s.records| && s.records[r].settled
    ensures CalledAfterEnd(s, actions, r) <==> TimerFires(r) in actions
    ensures !SomewhereEndedArmed(s, actions, r)
    decreases |actions|
  {
    if actions != [] {
      CallStep(s, actions[0], r);
      StepStaysSane(s, actions[0]);
      EndedIsCalledIff(Step(s, actions[0]), actions[1..], r);
    }
  }

  lemma {:induction false} LaterCalledIff(s: State, actions: seq<Action>, r: nat)
    requires Sane(s) && Possible(s, actions) && (r < |s.records| ==> !s.records[r].settled)
    ensures CalledAfterEnd(s, actions, r) <==> SomewhereEndedArmed(s, actions, r) && TimerFires(r) in actions
    decreases |actions|
  {
    if actions != [] {
      var a, s' := actions[0], Step(s, actions[0]);
      StepStaysSane(s, a);
      if r < |s.records| {
        CallStep(s, a, r);
        if s'.records[r].settled {
          EndedIsCalledIff(s', actions[1..], r);
          if !s'.records[r].deadline { UnarmedNeverFires(s', actions[1..], r); }
        } else {
          LaterCalledIff(s', actions[1..], r);
        }
      } else {
        if r < |s'.records| { NewlyRegistered(s, a, r); }
        LaterCalledIff(s', actions[1..], r);
      }
    }
  }

  /**
   In every run, keys shared or not, a registration is called back after its end if and only if it ended, by
   completion or by closing, while its timer was armed and its key did not lead to it, and the timer then fired.
   */
  lemma CalledAfterEndIff(actions: seq<Action>, r: nat)
    requires Possible(EMPTY, actions)
    ensures CalledAfterEnd(EMPTY, actions, r) <==> SomewhereEndedArmed(EMPTY, actions, r) && TimerFires(r) in actions
  {
    LaterCalledIff(EMPTY, actions, r);
  }

  /** Without shared keys no registration is ever called back after its end. */
  lemma {:induction false} UnsharedNeverCalledAfterEnd(s: State, actions: seq<Action>, r: nat)
    requires Inv(s) && Possible(s, actions) && AllUnshared(s, actions)
    ensures !SomewhereEndedArmed(s, actions, r)
    decreases |actions|
  {
    if actions != [] {
      if r < |s.records| { assert RecordAt(s, r); }
      StepKeeps(s, actions[0]);
      UnsharedNeverCalledAfterEnd(Step(s, actions[0]), actions[1..], r);
    }
  }

  lemma RunFirst(s: State, a: Action, rest: seq<Action>)
    requires Enabled(s, a) && Possible(Step(s, a), rest)
    ensures Possible(s, [a] + rest) && Run(s, [a] + rest) == Run(Step(s, a), rest)
    ensures AllUnshared(s, [a] + rest) <==> Unshared(s, a) && AllUnshared(Step(s, a), rest)
  {
    assert ([a] + rest)[1..] == rest;
  }

  /** A timed registration, whose key is registered again: completed, and then its timer fires all the same. */
  lemma SharedKeyCallsTwice(key: Key, topics: set<string>, more: set<string>)
    ensures var actions := [Register(key, topics, true, true)] + ([Register(key, more, false, false)]
                             + ([Complete(0)] + [TimerFires(0)]));
            && Possible(EMPTY, actions) && !AllUnshared(EMPTY, actions)
            && var s := Run(EMPTY, actions);
               |s.records| == 2 && s.records[0].completed == 1 && s.records[0].expired == 1
  {
    var first, second := Register(key, topics, true, true), Register(key, more, false, false);
    var s1 := Step(EMPTY, first);
    var s2 := Step(s1, second);
    var s3 := Step(s2, Complete(0));
    assert s1.records[0].key == key && !Unshared(s1, second);
    assert s3.records[0].deadline && s3.records[0].completed == 1;
    RunFirst(s3, TimerFires(0), []);
    RunFirst(s2, Complete(0), [TimerFires(0)]);
    RunFirst(s1, second, [Complete(0)] + [TimerFires(0)]);
    RunFirst(EMPTY, first, [second] + ([Complete(0)] + [TimerFires(0)]));
  }

  /**
   Ending a subscription leaves every other one registered if and only if its key does not lead to another, newer
   registration; otherwise it takes that one out of the registry, unsettled, and clears its timer.
   */
  lemma EndingTakesOnlyItself(s: State, r: nat, completes: bool)
    requires r < |s.records| && !s.records[r].settled
    requires Leads(s)
    ensures (forall u: nat :: u != r && Registered(s, u) ==> Registered(Settled(s, r, completes), u))
            <==> (s.records[r].key in s.registry ==> s.registry[s.records[r].key] == r)
  {
    var key, s' := s.records[r].key, Settled(s, r, completes);
    if key in s.registry && s.registry[key] != r {
      var u := s.registry[key];
      assert Registered(s, u) && !Registered(s', u);
    }
  }

  /** Two registrations of one key: closing the first stops deliveries to the second, which is still live. */
  lemma SharedKeyLosesTheNewer(key: Key, topic: string)
    ensures var s1 := Step(EMPTY, Register(key, {topic}, false, false));
            var s2 := Step(s1, Register(key, {topic}, false, false));
            var s3 := Step(s2, Close(0));
            && !Unshared(s1, Register(key, {topic}, false, false))
            && 1 in Targets(s2, topic) && 1 !in Targets(s3, topic) && !s3.records[1].settled
  {
    var s1 := Step(EMPTY, Register(key, {topic}, false, false));
    var s2 := Step(s1, Register(key, {topic}, false, false));
    assert s1.records[0].key == key && s2.registry[key] == 1;
    assert key in s2.registry;
  }

  /** The same after closing, which by itself calls nothing: the registration is completed all the same. */
  lemma SharedKeyCallsClosed(key: Key, topics: set<string>, more: set<string>)
    ensures var actions := [Register(key, topics, true, false)] + ([Register(key, more, false, false)]
                             + ([Close(0)] + [TimerFires(0)]));
            && Possible(EMPTY, actions) && CalledAfterEnd(EMPTY, actions, 0)
            && var s := Run(EMPTY, actions);
               |s.records| == 2 && s.records[0].settled && s.records[0].completed == 1
  {
    var first, second := Register(key, topics, true, false), Register(key, more, false, false);
    var s1 := Step(EMPTY, first);
    var s2 := Step(s1, second);
    var s3 := Step(s2, Close(0));
    assert s1.records[0].key == key && s2.registry[key] == 1;
    assert s3.records[0].deadline && s3.records[0].settled && s3.records[0].completed == 0;
    RunFirst(s3, TimerFires(0), []);
    RunFirst(s2, Close(0), [TimerFires(0)]);
    RunFirst(s1, second, [Close(0)] + [TimerFires(0)]);
    RunFirst(EMPTY, first, [second] + ([Close(0)] + [TimerFires(0)]));
    assert CallsEnded(s3, TimerFires(0), 0);
    CalledFirst(s3, TimerFires(0), [], 0);
    CalledFirst(s2, Close(0), [TimerFires(0)], 0);
    CalledFirst(s1, second, [Close(0)] + [TimerFires(0)], 0);
    CalledFirst(EMPTY, first, [second] + ([Close(0)] + [TimerFires(0)]), 0);
  }

  lemma CalledFirst(s: State, a: Action, rest: seq<Action>, r: nat)
    requires Enabled(s, a) && Possible(Step(s, a), rest)
    ensures Possible(s, [a] + rest)
    ensures CalledAfterEnd(s, [a] + rest, r) <==> CallsEnded(s, a, r) || CalledAfterEnd(Step(s, a), rest, r)
  {
    assert ([a] + rest)[1..] == rest;
  }

  // ----- The hub as a class

  class Hub {
    var records: seq<Record>
    var registry: map<Key, nat>
    var disposed: bool
    ghost var deliveries: seq<set<nat>>
    ghost var log: seq<Action>

    ghost function Fields(): State
      reads this
    {
      State(records, registry, disposed, deliveries)
    }

    /** The actions of the log have led from an empty hub to this one. */
    ghost predicate Valid()
      reads this
    {
      H.History(Advance, EMPTY, log, Fields())
    }

    constructor ()
      ensures Valid() && log == [] && Fields() == EMPTY
    {
      records, registry, disposed, deliveries, log := [], map[], false, [], [];
      H.NoHistory(Advance, EMPTY);
    }

    method RegisterEntry(key: Key, topics: set<string>, timed: bool, hasExpire: bool) returns (handle: nat)
      modifies `records, `registry
      ensures handle == |old(records)|
      ensures Fields() == Step(old(Fields()), Register(key, topics, timed, hasExpire))
    {
      handle := |records|;
      registry := registry[key := handle];
      records := records + [Record(key, topics, hasExpire, false, timed, 0, 0)];
    }

    method RemoveEntry(key: Key)
      modifies `records, `registry
      ensures Fields() == Removed(old(Fields()), key)
    {
      if key !in registry {
        return;
      }
      var r := registry[key];
      if r < |records| {
        records := records[r := records[r].(deadline := false)];
      }
      registry := registry - {key};
    }

    method CompleteEntry(r: nat)
      requires r < |records|
      modifies `records, `registry
      ensures Fields() == Step(old(Fields()), Complete(r))
    {
      if records[r].settled {
        return;
      }
      records := records[r := records[r].(settled := true)];
      RemoveEntry(records[r].key);
      records := records[r := records[r].(completed := records[r].completed + 1)];
    }

    method CloseEntry(r: nat)
      requires r < |records|
      modifies `records, `registry
      ensures Fields() == Step(old(Fields()), Close(r)) && |records| == |old(records)|
    {
      if records[r].settled {
        return;
      }
      records := records[r := records[r].(settled := true)];
      RemoveEntry(records[r].key);
    }

    /** The expiry timer: the entry closes, then learns that it expired. */
    method OnDeadline(r: nat)
      requires Enabled(Fields(), TimerFires(r))
      modifies `records, `registry
      ensures Fields() == Step(old(Fields()), TimerFires(r))
    {
      records := records[r := records[r].(deadline := false)];
      CloseEntry(r);
      var record := records[r];
      if record.hasExpire {
        records := records[r := record.(expired := record.expired + 1)];
      } else {
        records := records[r := record.(completed := record.completed + 1)];
      }
    }

    /** Whom an event goes to: one pass over the registry. */
    method Deliver(topic: string) returns (targets: set<nat>)
      modifies `deliveries
      ensures !disposed ==> targets == Targets(old(Fields()), topic)
      ensures Fields() == Step(old(Fields()), FanOut(topic))
    {
      targets := {};
      if disposed {
        return;
      }
      var todo := registry.Keys;
      while todo != {}
        invariant todo <= registry.Keys && deliveries == old(deliveries)
        invariant targets == set key | key in registry.Keys - todo && registry[key] < |records|
                                       && topic in records[registry[key]].topics :: registry[key]
        decreases |todo|
      {
        var key := AnyOf(todo);
        todo := todo - {key};
        if registry[key] < |records| && topic in records[registry[key]].topics {
          targets := targets + {registry[key]};
        }
      }
      deliveries := deliveries + [targets];
    }

    /** Clears the timers of whatever the registry leads to, and forgets all of it. */
    method DropAll()
      modifies `records, `registry, `disposed
      ensures Fields() == Step(old(Fields()), Dispose)
    {
      var i := 0;
      while i < |records|
        invariant i <= |records| == |old(records)| && registry == old(registry) && disposed == old(disposed)
        invariant forall k :: 0 <= k < i ==> records[k] == Quiet(old(Fields()))[k]
        invariant forall k :: i <= k < |records| ==> records[k] == old(records)[k]
      {
        if records[i].key in registry && registry[records[i].key] == i {
          records := records[i := records[i].(deadline := false)];
        }
        i := i + 1;
      }
      registry, disposed := map[], true;
    }

    method Apply(a: Action)
      requires Enabled(Fields(), a)
      modifies `records, `registry, `disposed, `deliveries
      ensures Fields() == Step(old(Fields()), a)
    {
      match a {
        case Register(key, topics, timed, hasExpire) =>
          var _ := RegisterEntry(key, topics, timed, hasExpire);
        case Complete(r) => CompleteEntry(r);
        case Close(r) => CloseEntry(r);
        case TimerFires(r) => OnDeadline(r);
        case FanOut(topic) =>
          var _ := Deliver(topic);
        case Dispose => DropAll();
      }
    }

    /** Whatever can happen to the hub, with its place in the history. */
    method Handle(a: Action)
      requires Valid() && Enabled(Fields(), a)
      modifies this
      ensures Valid() && log == old(log) + [a] && Fields() == Step(old(Fields()), a)
    {
      Apply(a);
      H.HistoryGrows(Advance, EMPTY, log, old(Fields()), a, Fields());
      log := log + [a];
    }

    /** Every hub calls a registration back twice exactly if its history completed it armed and let its timer fire. */
    lemma CallsBackTwiceIff(r: nat)
      requires Valid() && r < |records|
      ensures Possible(EMPTY, log)
      ensures records[r].completed + records[r].expired == 2
              <==> SomewhereCompletedArmed(EMPTY, log, r) && TimerFires(r) in log
    {
      HistoryIsRun(EMPTY, log, Fields());
      CalledTwiceIff(log, r);
    }
  }
}
