/**
 Keeping a list of runs current from one snapshot and a stream of events.

 The client subscribes, asks for a snapshot, buffers the ids of events that arrive before it, re-reads those when
 it lands, and applies later events directly. A re-read is used only if no event for its id came in meanwhile.
 Server, event stream and reads in flight are part of the state; `Converges` is the main result.
 */
module ReconciledQuery {
  import opened Options
  import H = Histories

  type RunID = int
  datatype Run = Run(state: string, updatedAt: int)
  datatype Filter = Filter(states: Option<set<string>>, updatedBefore: Option<int>)

  predicate Matches(run: Run, filter: Filter) {
    && (filter.states.Some? ==> run.state in filter.states.value)
    && (filter.updatedBefore.Some? ==> run.updatedAt < filter.updatedBefore.value)
  }

  function FilterRuns(runs: map<RunID, Run>, filter: Filter): (r: map<RunID, Run>)
    ensures forall id :: id in r <==> id in runs && Matches(runs[id], filter)
    ensures forall id :: id in r ==> r[id] == runs[id]
  {
    map id | id in runs && Matches(runs[id], filter) :: runs[id]
  }

  // ----- The client

  datatype Event = Event(id: RunID, run: Run)

  /** `landed` says the snapshot of this generation arrived; `failed` has the ids whose needed re-read failed. */
  datatype Client = Client(
    filter: Filter, data: map<RunID, Run>, generation: nat, buffering: bool, buffered: set<RunID>,
    versions: map<RunID, nat>, landed: bool, failed: set<RunID>)

  function Version(c: Client, id: RunID): nat {
    if id in c.versions then c.versions[id] else 0
  }

  function Applied(c: Client, e: Event): map<RunID, Run> {
    FilterRuns(c.data[e.id := e.run], c.filter)
  }

  /** The data with the entry of one id replaced by what its re-read found. */
  function Merged(c: Client, id: RunID, entry: Option<Run>): map<RunID, Run> {
    FilterRuns(if entry.Some? then (c.data - {id})[id := entry.value] else c.data - {id}, c.filter)
  }

  function Received(c: Client, e: Event): Client {
    var c' := c.(versions := c.versions[e.id := Version(c, e.id) + 1]);
    if c.buffering then c'.(buffered := c.buffered + {e.id})
    else c'.(data := Applied(c, e), failed := c.failed - {e.id})
  }

  function SnapshotLanded(c: Client, generation: nat, snapshot: map<RunID, Run>): Client {
    if generation != c.generation then c
    else c.(data := FilterRuns(snapshot, c.filter), buffering := false, landed := true)
  }

  function SnapshotFailed(c: Client, generation: nat): Client {
    if generation != c.generation then c else c.(buffering := false)
  }

  /** The re-reads started when buffering ends, with the version each is for. */
  function Issued(c: Client, generation: nat): map<RunID, nat> {
    if generation != c.generation then map[] else map id | id in c.buffered :: Version(c, id)
  }

  function Reread(c: Client, generation: nat, id: RunID, version: nat, entry: Option<Run>): Client {
    if generation == c.generation && Version(c, id) == version then c.(data := Merged(c, id, entry)) else c
  }

  function RereadFailed(c: Client, generation: nat, id: RunID, version: nat): Client {
    if generation == c.generation && Version(c, id) == version then c.(failed := c.failed + {id}) else c
  }

  function Restarted(c: Client, data: map<RunID, Run>): Client {
    Client(c.filter, data, c.generation + 1, true, {}, map[], false, {})
  }

  // ----- The whole system

  datatype Key = Key(generation: nat, id: RunID)

  /** A re-read in flight; `answer` is what the server found, once it has looked. */
  datatype Pending = Pending(version: nat, answer: Option<Option<Run>>)

  datatype State = State(
    server: map<RunID, Run>, channel: seq<Event>, client: Client,
    snapshots: map<nat, Option<map<RunID, Run>>>, rereads: map<Key, Pending>)

  datatype Action =
    | ServerUpdates(id: RunID, run: Run)
    | EventArrives
    | SnapshotAnswered(generation: nat)
    | SnapshotArrives(generation: nat)
    | SnapshotRejected(generation: nat)
    | RereadAnswered(key: Key)
    | RereadArrives(key: Key)
    | RereadRejected(key: Key)
    | Refresh
    | Reconnect

  predicate Enabled(s: State, a: Action) {
    match a
    case ServerUpdates(_, _) => true
    case EventArrives => s.channel != []
    case SnapshotAnswered(g) => g in s.snapshots && s.snapshots[g].None?
    case SnapshotArrives(g) => g in s.snapshots && s.snapshots[g].Some?
    case SnapshotRejected(g) => g in s.snapshots
    case RereadAnswered(k) => k in s.rereads && s.rereads[k].answer.None?
    case RereadArrives(k) => k in s.rereads && s.rereads[k].answer.Some?
    case RereadRejected(k) => k in s.rereads
    case Refresh => true
    case Reconnect => true
  }

  function Starting(generation: nat, ids: map<RunID, nat>): map<Key, Pending> {
    map id | id in ids :: Key(generation, id) := Pending(ids[id], None)
  }

  function Step(s: State, a: Action): State
    requires Enabled(s, a)
  {
    match a
    case ServerUpdates(id, run) => s.(server := s.server[id := run], channel := s.channel + [Event(id, run)])
    case EventArrives => s.(channel := s.channel[1..], client := Received(s.client, s.channel[0]))
    case SnapshotAnswered(g) =>
      s.(snapshots := s.snapshots[g := Some(FilterRuns(s.server, s.client.filter))])
    case SnapshotArrives(g) =>
      s.(client := SnapshotLanded(s.client, g, s.snapshots[g].value), snapshots := s.snapshots - {g},
         rereads := s.rereads + Starting(g, Issued(s.client, g)))
    case SnapshotRejected(g) =>
      s.(client := SnapshotFailed(s.client, g), snapshots := s.snapshots - {g},
         rereads := s.rereads + Starting(g, Issued(s.client, g)))
    case RereadAnswered(k) =>
      s.(rereads := s.rereads[k := s.rereads[k].(answer := Some(Lookup(s.server, k.id)))])
    case RereadArrives(k) =>
      var r := s.rereads[k];
      s.(client := Reread(s.client, k.generation, k.id, r.version, r.answer.value), rereads := s.rereads - {k})
    case RereadRejected(k) =>
      s.(client := RereadFailed(s.client, k.generation, k.id, s.rereads[k].version), rereads := s.rereads - {k})
    case Refresh => Asking(s.(client := Restarted(s.client, s.client.data)))
    case Reconnect => Asking(s.(client := Restarted(s.client, map[]), channel := []))
  }

  /** The client has just subscribed and asks for its snapshot. */
  function Asking(s: State): State {
    s.(snapshots := s.snapshots[s.client.generation := None])
  }

  function Initial(server: map<RunID, Run>, filter: Filter): State {
    Asking(State(server, [], Client(filter, map[], 1, true, {}, map[], false, {}), map[], map[]))
  }

  predicate Possible(s: State, actions: seq<Action>)
    decreases |actions|
  {
    actions == [] || (Enabled(s, actions[0]) && Possible(Step(s, actions[0]), actions[1..]))
  }

  function RunAll(s: State, actions: seq<Action>): State
    requires Possible(s, actions)
    decreases |actions|
  {
    if actions == [] then s else RunAll(Step(s, actions[0]), actions[1..])
  }

  /** The step of an action that can happen. */
  function Advance(s: State, a: Action): Option<State> {
    if Enabled(s, a) then Some(Step(s, a)) else None
  }

  lemma {:induction false} HistoryIsRun(s: State, log: seq<Action>, now: State)
    requires H.History(Advance, s, log, now)
    ensures Possible(s, log) && RunAll(s, log) == now
    decreases |log|
  {
    H.HistoryFirst(Advance, s, log, now);
    if log != [] { HistoryIsRun(Step(s, log[0]), log[1..], now); }
  }

  // ----- Invariant

  /** The last event for an id that has not arrived yet. */
  ghost function LastFor(channel: seq<Event>, id: RunID): Option<Run> {
    if channel == [] then None
    else if channel[|channel| - 1].id == id then Some(channel[|channel| - 1].run)
    else LastFor(channel[..|channel| - 1], id)
  }

  /** What the list should show for an id. */
  ghost function Shown(s: State, id: RunID): Option<Run> {
    if id in s.server && Matches(s.server[id], s.client.filter) then Some(s.server[id]) else None
  }

  /** The re-read of this id that the client would still use. */
  ghost predicate Awaited(s: State, id: RunID) {
    var k := Key(s.client.generation, id);
    k in s.rereads && s.rereads[k].version == Version(s.client, id)
  }

  /** The client has had a way to learn about this id: the snapshot, or an event and no failed re-read. */
  ghost predicate Informed(c: Client, id: RunID) {
    (c.landed || id in c.versions) && id !in c.failed
  }

  ghost predicate InvAt(s: State, id: RunID) {
    var c := s.client;
    var k := Key(c.generation, id);
    && (id in c.data ==> Matches(c.data[id], c.filter))
    && (id in c.buffered ==> id in c.versions)
    && (k in s.rereads ==> !c.buffering && id in c.versions && s.rereads[k].version <= c.versions[id])
    && (c.buffering ==> (id in c.versions ==> id in c.buffered))
    && match LastFor(s.channel, id)
       case Some(run) => Lookup(s.server, id) == Some(run)
       case None =>
         if c.buffering then
           id !in c.buffered && c.generation in s.snapshots && s.snapshots[c.generation].Some? ==>
             Lookup(s.snapshots[c.generation].value, id) == Shown(s, id)
         else if Awaited(s, id) then
           s.rereads[k].answer.Some? ==> s.rereads[k].answer.value == Lookup(s.server, id)
         else Informed(c, id) ==> Lookup(c.data, id) == Shown(s, id)
  }

  ghost predicate Tidy(s: State) {
    && (s.client.buffering <==> s.client.generation in s.snapshots)
    && (s.client.buffering ==> !s.client.landed && s.client.failed == {})
    && (forall g :: g in s.snapshots ==> g <= s.client.generation)
    && (forall k :: k in s.rereads ==> k.generation <= s.client.generation)
  }

  ghost predicate Inv(s: State) {
    Tidy(s) && forall id: RunID :: InvAt(s, id)
  }

  lemma {:induction false} LastOfRest(channel: seq<Event>, id: RunID)
    requires channel != []
    ensures LastFor(channel[1..], id).Some? ==> LastFor(channel[1..], id) == LastFor(channel, id)
    ensures LastFor(channel[1..], id).None? ==>
              LastFor(channel, id) == if channel[0].id == id then Some(channel[0].run) else None
    decreases |channel|
  {
    var last := |channel| - 1;
    if last > 0 {
      LastOfRest(channel[..last], id);
      assert channel[..last][1..] == channel[1..][..last - 1];
    } else {
      assert channel[1..] == [] && LastFor(channel[..0], id).None?;
    }
  }

  lemma LastAfterUpdate(channel: seq<Event>, e: Event, id: RunID)
    ensures LastFor(channel + [e], id) == if e.id == id then Some(e.run) else LastFor(channel, id)
  {
    assert (channel + [e])[..|channel|] == channel;
  }

  // ----- Each kind of step

  lemma UpdateKeeps(s: State, id: RunID, run: Run)
    requires Inv(s)
    ensures Inv(Step(s, ServerUpdates(id, run)))
  {
    var s' := Step(s, ServerUpdates(id, run));
    forall u: RunID ensures InvAt(s', u) {
      assert InvAt(s, u);
      LastAfterUpdate(s.channel, Event(id, run), u);
    }
  }

  lemma EventKeeps(s: State)
    requires Inv(s) && s.channel != []
    ensures Inv(Step(s, EventArrives))
  {
    var s' := Step(s, EventArrives);
    forall u: RunID ensures InvAt(s', u) {
      assert InvAt(s, u);
      LastOfRest(s.channel, u);
    }
  }

  lemma SnapshotAnswerKeeps(s: State, g: nat)
    requires Inv(s) && Enabled(s, SnapshotAnswered(g))
    ensures Inv(Step(s, SnapshotAnswered(g)))
  {
    var s' := Step(s, SnapshotAnswered(g));
    forall u: RunID ensures InvAt(s', u) {
      assert InvAt(s, u);
    }
  }

  lemma StaleSnapshotKeeps(s: State, a: Action)
    requires Inv(s) && Enabled(s, a) && (a.SnapshotArrives? || a.SnapshotRejected?)
    requires a.generation != s.client.generation
    ensures Inv(Step(s, a))
  {
    StaleSnapshotIsIgnored(s, a);
    var s' := s.(snapshots := s.snapshots - {a.generation});
    forall u: RunID ensures InvAt(s', u) {
      assert InvAt(s, u);
    }
  }

  lemma StaleSnapshotIsIgnored(s: State, a: Action)
    requires Enabled(s, a) && (a.SnapshotArrives? || a.SnapshotRejected?)
    requires a.generation != s.client.generation
    ensures Step(s, a) == s.(snapshots := s.snapshots - {a.generation})
  {
    assert Starting(a.generation, map[]) == map[];
    assert s.rereads + map[] == s.rereads;
  }

  lemma SnapshotKeeps(s: State, a: Action)
    requires Inv(s) && Enabled(s, a) && (a.SnapshotArrives? || a.SnapshotRejected?)
    requires a.generation == s.client.generation
    ensures Inv(Step(s, a))
  {
    var s' := Step(s, a);
    forall u: RunID ensures InvAt(s', u) {
      assert InvAt(s, u);
    }
  }

  lemma RereadAnswerKeeps(s: State, k: Key)
    requires Inv(s) && Enabled(s, RereadAnswered(k))
    ensures Inv(Step(s, RereadAnswered(k)))
  {
    var s' := Step(s, RereadAnswered(k));
    forall u: RunID ensures InvAt(s', u) {
      assert InvAt(s, u);
    }
  }

  lemma RereadKeeps(s: State, k: Key)
    requires Inv(s) && Enabled(s, RereadArrives(k))
    ensures Inv(Step(s, RereadArrives(k)))
  {
    var s' := Step(s, RereadArrives(k));
    forall u: RunID ensures InvAt(s', u) {
      assert InvAt(s, u);
      assert InvAt(s, k.id);
    }
  }

  lemma RereadFailureKeeps(s: State, k: Key)
    requires Inv(s) && Enabled(s, RereadRejected(k))
    ensures Inv(Step(s, RereadRejected(k)))
  {
    var s' := Step(s, RereadRejected(k));
    assert InvAt(s, k.id);
    forall u: RunID ensures InvAt(s', u) {
      assert InvAt(s, u);
    }
  }

  lemma RestartKeeps(s: State, a: Action)
    requires Inv(s) && (a.Refresh? || a.Reconnect?)
    ensures Inv(Step(s, a))
  {
    var s' := Step(s, a);
    forall u: RunID ensures InvAt(s', u) {
      assert InvAt(s, u);
    }
  }

  lemma StepKeeps(s: State, a: Action)
    requires Inv(s) && Enabled(s, a)
    ensures Inv(Step(s, a))
  {
    match a
    case ServerUpdates(id, run) => UpdateKeeps(s, id, run);
    case EventArrives => EventKeeps(s);
    case SnapshotAnswered(g) => SnapshotAnswerKeeps(s, g);
    case SnapshotArrives(g) => if g == s.client.generation { SnapshotKeeps(s, a); } else { StaleSnapshotKeeps(s, a); }
    case SnapshotRejected(g) => if g == s.client.generation { SnapshotKeeps(s, a); } else { StaleSnapshotKeeps(s, a); }
    case RereadAnswered(k) => RereadAnswerKeeps(s, k);
    case RereadArrives(k) => RereadKeeps(s, k);
    case RereadRejected(k) => RereadFailureKeeps(s, k);
    case Refresh => RestartKeeps(s, a);
    case Reconnect => RestartKeeps(s, a);
  }

  lemma {:induction false} RunKeeps(s: State, actions: seq<Action>)
    requires Inv(s) && Possible(s, actions)
    ensures Inv(RunAll(s, actions))
    decreases |actions|
  {
    if actions != [] {
      StepKeeps(s, actions[0]);
      RunKeeps(Step(s, actions[0]), actions[1..]);
    }
  }

  // ----- Convergence

  /** No event is on its way, the snapshot is in, and no re-read the client would use is out. */
  ghost predicate Quiet(s: State) {
    s.channel == [] && !s.client.buffering && forall id: RunID :: !Awaited(s, id)
  }

  /**
   In every quiet state any run of the system leads to, the client shows what the server has, for every id it
   was informed about, however snapshots, re-reads, refreshes and reconnections were interleaved with events.
   */
  lemma Converges(server: map<RunID, Run>, filter: Filter, actions: seq<Action>, id: RunID)
    requires Possible(Initial(server, filter), actions)
    requires var s := RunAll(Initial(server, filter), actions); Quiet(s) && Informed(s.client, id)
    ensures var s := RunAll(Initial(server, filter), actions); Lookup(s.client.data, id) == Shown(s, id)
  {
    var s0 := Initial(server, filter);
    assert Inv(s0) by {
      forall u: RunID ensures InvAt(s0, u) { }
    }
    RunKeeps(s0, actions);
    assert InvAt(RunAll(s0, actions), id);
  }

  /** With its snapshot landed and no needed re-read failed, the client shows exactly the server's matching runs. */
  lemma ConvergesEverywhere(server: map<RunID, Run>, filter: Filter, actions: seq<Action>)
    requires Possible(Initial(server, filter), actions)
    requires var s := RunAll(Initial(server, filter), actions);
             Quiet(s) && s.client.landed && s.client.failed == {}
    ensures var s := RunAll(Initial(server, filter), actions); s.client.data == FilterRuns(s.server, s.client.filter)
  {
    var s := RunAll(Initial(server, filter), actions);
    var expected := FilterRuns(s.server, s.client.filter);
    forall id: RunID
      ensures id in s.client.data <==> id in expected
      ensures id in s.client.data ==> s.client.data[id] == expected[id]
    {
      Converges(server, filter, actions, id);
    }
  }

  // ----- The same client as the effect's closure

  /** The closure of the effect that keeps one list of runs current. */
  class RunsQuery {
    const filter: Filter
    var data: map<RunID, Run>
    var generation: nat
    var buffering: bool
    var buffered: set<RunID>
    var versions: map<RunID, nat>
    var landed: bool
    var failed: set<RunID>

    // The system the client is in, from what server it began with, and what has happened in it
    ghost const initialServer: map<RunID, Run>
    ghost var world: State
    ghost var log: seq<Action>

    ghost function Fields(): Client
      reads this
    {
      Client(filter, data, generation, buffering, buffered, versions, landed, failed)
    }

    /** The client is the one of a system that has come this far. */
    ghost predicate Valid()
      reads this
    {
      world.client == Fields() && H.History(Advance, Initial(initialServer, filter), log, world)
    }

    constructor (filter: Filter, ghost server: map<RunID, Run>)
      ensures Valid() && log == []
      ensures Fields() == Client(filter, map[], 1, true, {}, map[], false, {})
    {
      this.filter := filter;
      data, generation, buffering, buffered, versions, landed, failed := map[], 1, true, {}, map[], false, {};
      initialServer, world, log := server, Initial(server, filter), [];
      H.NoHistory(Advance, Initial(server, filter));
    }

    /** Runs the effect again: on a refresh with the data kept, on a reconnection from nothing. */
    method Start(keep: bool)
      modifies `data, `generation, `buffering, `buffered, `versions, `landed, `failed
      ensures Fields() == Restarted(old(Fields()), if keep then old(data) else map[])
    {
      generation := generation + 1;
      if !keep {
        data := map[];
      }
      buffering, buffered, versions, landed, failed := true, {}, map[], false, {};
    }

    method OnEvent(e: Event)
      modifies `data, `versions, `buffered, `failed
      ensures Fields() == Received(old(Fields()), e)
    {
      versions := versions[e.id := (if e.id in versions then versions[e.id] else 0) + 1];
      if buffering {
        buffered := buffered + {e.id};
      } else {
        data := FilterRuns(data[e.id := e.run], filter);
        failed := failed - {e.id};
      }
    }

    /** The ids to re-read when buffering ends, with their current versions. */
    method Issue() returns (issued: map<RunID, nat>)
      ensures issued == Issued(Fields(), generation)
    {
      issued := map[];
      var todo := buffered;
      while todo != {}
        invariant todo <= buffered
        invariant issued == map id | id in buffered - todo :: Version(Fields(), id)
        decreases todo
      {
        var id := AnyOf(todo);
        issued := issued[id := if id in versions then versions[id] else 0];
        todo := todo - {id};
      }
    }

    method OnSnapshot(of: nat, snapshot: map<RunID, Run>) returns (issued: map<RunID, nat>)
      modifies `data, `buffering, `landed
      ensures Fields() == SnapshotLanded(old(Fields()), of, snapshot)
      ensures issued == Issued(old(Fields()), of)
    {
      if of != generation {
        return map[];
      }
      data, landed := FilterRuns(snapshot, filter), true;
      buffering := false;
      issued := Issue();
    }

    method OnSnapshotRejected(of: nat) returns (issued: map<RunID, nat>)
      modifies `buffering
      ensures Fields() == SnapshotFailed(old(Fields()), of)
      ensures issued == Issued(old(Fields()), of)
    {
      if of != generation {
        return map[];
      }
      buffering := false;
      issued := Issue();
    }

    method OnReread(of: nat, id: RunID, version: nat, entry: Option<Run>)
      modifies `data
      ensures Fields() == Reread(old(Fields()), of, id, version, entry)
    {
      if of == generation && (if id in versions then versions[id] else 0) == version {
        var next := data - {id};
        if entry.Some? {
          next := next[id := entry.value];
        }
        data := FilterRuns(next, filter);
      }
    }

    method OnRereadRejected(of: nat, id: RunID, version: nat)
      modifies `failed
      ensures Fields() == RereadFailed(old(Fields()), of, id, version)
    {
      if of == generation && (if id in versions then versions[id] else 0) == version {
        failed := failed + {id};
      }
    }

    // ----- The same steps in their system

    /** The rest of the system takes its part in a step. */
    ghost method Log(a: Action)
      requires H.History(Advance, Initial(initialServer, filter), log, world)
      requires Enabled(world, a) && Step(world, a).client == Fields()
      modifies `world, `log
      ensures Valid() && log == old(log) + [a] && world == Step(old(world), a)
    {
      H.HistoryGrows(Advance, Initial(initialServer, filter), log, world, a, Step(world, a));
      world, log := Step(world, a), log + [a];
    }

    /** The server updates a run or answers a request, and the client has not heard of it yet. */
    ghost method Elsewhere(a: Action)
      requires Valid() && Enabled(world, a) && (a.ServerUpdates? || a.SnapshotAnswered? || a.RereadAnswered?)
      modifies `world, `log
      ensures Valid() && log == old(log) + [a] && world == Step(old(world), a)
    {
      Log(a);
    }

    method Restart(keep: bool)
      requires Valid()
      modifies this
      ensures Valid() && log == old(log) + [if keep then Refresh else Reconnect]
    {
      Start(keep);
      Log(if keep then Refresh else Reconnect);
    }

    method TakeEvent(e: Event)
      requires Valid() && world.channel != [] && e == world.channel[0]
      modifies this
      ensures Valid() && log == old(log) + [EventArrives]
    {
      OnEvent(e);
      Log(EventArrives);
    }

    /** The ids to read again are those the system now has re-reads out for. */
    method TakeSnapshot(of: nat, snapshot: map<RunID, Run>) returns (issued: map<RunID, nat>)
      requires Valid() && of in world.snapshots && world.snapshots[of] == Some(snapshot)
      modifies this
      ensures Valid() && log == old(log) + [SnapshotArrives(of)]
      ensures world.rereads == old(world).rereads + Starting(of, issued)
    {
      issued := OnSnapshot(of, snapshot);
      Log(SnapshotArrives(of));
    }

    method TakeSnapshotFailure(of: nat) returns (issued: map<RunID, nat>)
      requires Valid() && of in world.snapshots
      modifies this
      ensures Valid() && log == old(log) + [SnapshotRejected(of)]
      ensures world.rereads == old(world).rereads + Starting(of, issued)
    {
      issued := OnSnapshotRejected(of);
      Log(SnapshotRejected(of));
    }

    method TakeReread(of: nat, id: RunID, version: nat, entry: Option<Run>)
      requires Valid() && Key(of, id) in world.rereads && world.rereads[Key(of, id)] == Pending(version, Some(entry))
      modifies this
      ensures Valid() && log == old(log) + [RereadArrives(Key(of, id))]
    {
      OnReread(of, id, version, entry);
      Log(RereadArrives(Key(of, id)));
    }

    method TakeRereadFailure(of: nat, id: RunID, version: nat)
      requires Valid() && Key(of, id) in world.rereads && world.rereads[Key(of, id)].version == version
      modifies this
      ensures Valid() && log == old(log) + [RereadRejected(Key(of, id))]
    {
      OnRereadRejected(of, id, version);
      Log(RereadRejected(Key(of, id)));
    }

    /** Whenever its system is quiet, every such client shows what the server has for each id it was informed about. */
    lemma ShowsServerWhenQuiet(id: RunID)
      requires Valid() && Quiet(world) && Informed(Fields(), id)
      ensures Lookup(data, id) == Shown(world, id)
    {
      HistoryIsRun(Initial(initialServer, filter), log, world);
      Converges(initialServer, filter, log, id);
    }
  }
}
