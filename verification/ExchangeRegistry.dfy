/**
 The registry of outbound exchanges: one map from ids to pending exchanges behind every way an exchange can end.
 Ids are fresh, and settle handlers do not call back into the registry.
 */
module ExchangeRegistry {
  import opened Options

  type RequestID = int

  datatype Kind = Once | Stream

  datatype Reason = Result | Error | Cancel | Closed

  datatype Answer = ResultAnswer | ErrorAnswer | MalformedAnswer

  datatype Frame = Progress(value: int) | InputRequest(value: int) | ResultFrame | ErrorFrame | OtherFrame

  datatype Event =
    | Register(id: RequestID, kind: Kind)
    | Response(id: RequestID, answer: Answer)
    | StreamFrame(id: RequestID, frame: Frame)
    | CancelOne(id: RequestID)
    | FailOne(id: RequestID)
    | CloseOne(id: RequestID)
    | EndAll

  /** The pending exchanges, and per id what was delivered to it and the reasons it was settled with. */
  datatype State = State(exchanges: map<RequestID, Kind>, delivered: map<RequestID, seq<Frame>>,
                         settled: map<RequestID, seq<Reason>>)

  const EMPTY := State(map[], map[], map[])

  function Log<T>(m: map<RequestID, seq<T>>, id: RequestID): seq<T> {
    if id in m then m[id] else []
  }

  function Settle(s: State, id: RequestID, reason: Reason): State {
    s.(exchanges := s.exchanges - {id}, settled := s.settled[id := Log(s.settled, id) + [reason]])
  }

  function Route(s: State, id: RequestID, answer: Answer): State {
    if id !in s.exchanges then s else Settle(s, id, if answer.ResultAnswer? then Result else Error)
  }

  function RouteFrame(s: State, id: RequestID, frame: Frame): State {
    if id !in s.exchanges || s.exchanges[id].Once? then s
    else
      match frame
      case ResultFrame => Settle(s, id, Result)
      case ErrorFrame => Settle(s, id, Error)
      case OtherFrame => s
      case _ => s.(delivered := s.delivered[id := Log(s.delivered, id) + [frame]])
  }

  function EndEvery(s: State): State {
    State(map[], s.delivered,
          map id | id in s.exchanges.Keys + s.settled.Keys ::
            Log(s.settled, id) + if id in s.exchanges then [Closed] else [])
  }

  function Step(s: State, e: Event): State {
    match e
    case Register(id, kind) => s.(exchanges := s.exchanges[id := kind])
    case Response(id, answer) => Route(s, id, answer)
    case StreamFrame(id, frame) => RouteFrame(s, id, frame)
    case CancelOne(id) => if id in s.exchanges then Settle(s, id, Cancel) else s
    case FailOne(id) => if id in s.exchanges then Settle(s, id, Error) else s
    case CloseOne(id) => if id in s.exchanges && s.exchanges[id].Stream? then Settle(s, id, Closed) else s
    case EndAll => EndEvery(s)
  }

  function Run(events: seq<Event>): State
    decreases |events|
  {
    if events == [] then EMPTY else Step(Run(events[..|events| - 1]), events[|events| - 1])
  }

  // ----- Reference: the life of one exchange, alone

  datatype Life = Unborn | Live(kind: Kind, frames: seq<Frame>) | Ended(reason: Reason, frames: seq<Frame>)

  /** The reason an event gives an exchange of this kind to end, if it does. */
  function Terminal(e: Event, id: RequestID, kind: Kind): Option<Reason> {
    match e
    case Response(i, answer) => if i == id then Some(if answer.ResultAnswer? then Result else Error) else None
    case StreamFrame(i, frame) =>
      if i != id || kind.Once? then None
      else if frame.ResultFrame? then Some(Result)
      else if frame.ErrorFrame? then Some(Error)
      else None
    case CancelOne(i) => if i == id then Some(Cancel) else None
    case FailOne(i) => if i == id then Some(Error) else None
    case CloseOne(i) => if i == id && kind.Stream? then Some(Closed) else None
    case EndAll => Some(Closed)
    case Register(_, _) => None
  }

  predicate Delivers(e: Event, id: RequestID, kind: Kind) {
    kind.Stream? && e.StreamFrame? && e.id == id && (e.frame.Progress? || e.frame.InputRequest?)
  }

  function Lived(l: Life, e: Event, id: RequestID): Life {
    match l
    case Unborn => if e.Register? && e.id == id then Live(e.kind, []) else Unborn
    case Live(kind, frames) =>
      if Terminal(e, id, kind).Some? then Ended(Terminal(e, id, kind).value, frames)
      else if Delivers(e, id, kind) then Live(kind, frames + [e.frame])
      else l
    case Ended(_, _) => l
  }

  function LifeOf(events: seq<Event>, id: RequestID): Life
    decreases |events|
  {
    if events == [] then Unborn
    else Lived(LifeOf(events[..|events| - 1], id), events[|events| - 1], id)
  }

  /** Every id is registered at most once. */
  ghost predicate Fresh(events: seq<Event>) {
    forall i, j :: 0 <= i < j < |events| && events[i].Register? && events[j].Register? ==> events[i].id != events[j].id
  }

  // ----- The registry lives all lives at once

  ghost predicate Matches(s: State, id: RequestID, l: Life) {
    match l
    case Unborn => id !in s.exchanges && Log(s.settled, id) == [] && Log(s.delivered, id) == []
    case Live(kind, frames) =>
      id in s.exchanges && s.exchanges[id] == kind && Log(s.settled, id) == [] && Log(s.delivered, id) == frames
    case Ended(reason, frames) =>
      id !in s.exchanges && Log(s.settled, id) == [reason] && Log(s.delivered, id) == frames
  }

  lemma {:induction false} NotBornBefore(events: seq<Event>, id: RequestID)
    requires forall i :: 0 <= i < |events| && events[i].Register? ==> events[i].id != id
    ensures LifeOf(events, id).Unborn?
    decreases |events|
  {
    if events != [] { NotBornBefore(events[..|events| - 1], id); }
  }

  /** After any events with fresh ids, every exchange is exactly where its own events alone would have brought it. */
  lemma {:induction false} RegistryIsAllLives(events: seq<Event>, id: RequestID)
    requires Fresh(events)
    ensures Matches(Run(events), id, LifeOf(events, id))
    decreases |events|
  {
    if events != [] {
      var before, e := events[..|events| - 1], events[|events| - 1];
      RegistryIsAllLives(before, id);
      if e.Register? && e.id == id { NotBornBefore(before, id); }
    }
  }

  lemma {:induction false} EndedForGood(events: seq<Event>, n: nat, id: RequestID)
    requires n <= |events| && LifeOf(events[..n], id).Ended?
    ensures LifeOf(events, id) == LifeOf(events[..n], id)
    decreases |events|
  {
    if n < |events| {
      assert events[..|events| - 1][..n] == events[..n];
      EndedForGood(events[..|events| - 1], n, id);
    } else {
      assert events[..n] == events;
    }
  }

  /**
   The first event that ends a pending exchange settles it, once and with that event's reason, whatever follows;
   and what was delivered by then is all it ever gets.
   */
  lemma SettledByFirstTerminal(events: seq<Event>, n: nat, id: RequestID)
    requires Fresh(events) && n < |events| && LifeOf(events[..n], id).Live?
    requires Terminal(events[n], id, LifeOf(events[..n], id).kind).Some?
    ensures var life := LifeOf(events[..n], id);
            var s := Run(events);
            && id !in s.exchanges
            && Log(s.settled, id) == [Terminal(events[n], id, life.kind).value]
            && Log(s.delivered, id) == life.frames
  {
    assert events[..n + 1][..n] == events[..n];
    EndedForGood(events, n + 1, id);
    RegistryIsAllLives(events, id);
  }

  lemma EndAllLeavesNothing(events: seq<Event>, id: RequestID)
    requires Fresh(events) && events != [] && events[|events| - 1].EndAll?
    ensures Run(events).exchanges == map[]
    ensures LifeOf(events[..|events| - 1], id).Live? ==> Log(Run(events).settled, id) == [Closed]
  {
    RegistryIsAllLives(events, id);
  }

  /** While ending all: those of `before` that are no longer to do are closed. */
  ghost predicate EndedAt(settled: map<RequestID, seq<Reason>>, logs: map<RequestID, seq<Reason>>,
                          before: set<RequestID>, todo: set<RequestID>, id: RequestID) {
    var closed := id in before && id !in todo;
    && (id in settled <==> id in logs || closed)
    && Log(settled, id) == Log(logs, id) + if closed then [Closed] else []
  }

  lemma EndedEvery(settled: map<RequestID, seq<Reason>>, logs: map<RequestID, seq<Reason>>, before: set<RequestID>,
                   every: map<RequestID, seq<Reason>>)
    requires forall id :: EndedAt(settled, logs, before, {}, id)
    requires every == map id | id in before + logs.Keys :: Log(logs, id) + if id in before then [Closed] else []
    ensures settled == every
  {
    forall id ensures id in settled <==> id in every
              ensures id in settled ==> settled[id] == every[id]
    {
      assert EndedAt(settled, logs, before, {}, id);
    }
  }

  // ----- The registry as a class

  class Registry {
    var exchanges: map<RequestID, Kind>
    ghost var delivered: map<RequestID, seq<Frame>>
    ghost var settled: map<RequestID, seq<Reason>>
    ghost var log: seq<Event>

    ghost function Fields(): State
      reads this
    {
      State(exchanges, delivered, settled)
    }

    /** The events of the log, with fresh ids, have led from an empty registry to this one. */
    ghost predicate Valid()
      reads this
    {
      Fresh(log) && Fields() == Run(log)
    }

    constructor ()
      ensures Valid() && log == [] && Fields() == EMPTY
    {
      exchanges, delivered, settled, log := map[], map[], map[], [];
    }

    method SettleOne(id: RequestID, reason: Reason)
      modifies `exchanges, `settled
      ensures Fields() == Settle(old(Fields()), id, reason)
    {
      exchanges := exchanges - {id};
      settled := settled[id := Log(settled, id) + [reason]];
    }

    method Add(id: RequestID, kind: Kind)
      modifies `exchanges
      ensures Fields() == Step(old(Fields()), Register(id, kind))
    {
      exchanges := exchanges[id := kind];
    }

    method RouteResponse(id: RequestID, answer: Answer)
      modifies `exchanges, `settled
      ensures Fields() == Step(old(Fields()), Response(id, answer))
    {
      if id !in exchanges {
        return;
      }
      match answer
      case ErrorAnswer => SettleOne(id, Error);
      case ResultAnswer => SettleOne(id, Result);
      case MalformedAnswer => SettleOne(id, Error);
    }

    method RouteStreamFrame(id: RequestID, frame: Frame)
      modifies `exchanges, `delivered, `settled
      ensures Fields() == Step(old(Fields()), StreamFrame(id, frame))
    {
      if id !in exchanges || exchanges[id] != Stream {
        return;
      }
      match frame
      case Progress(_) => delivered := delivered[id := Log(delivered, id) + [frame]];
      case InputRequest(_) => delivered := delivered[id := Log(delivered, id) + [frame]];
      case ResultFrame => SettleOne(id, Result);
      case ErrorFrame => SettleOne(id, Error);
      case OtherFrame =>
    }

    method CancelExchange(id: RequestID)
      modifies `exchanges, `settled
      ensures Fields() == Step(old(Fields()), CancelOne(id))
    {
      if id in exchanges {
        SettleOne(id, Cancel);
      }
    }

    method Fail(id: RequestID)
      modifies `exchanges, `settled
      ensures Fields() == Step(old(Fields()), FailOne(id))
    {
      if id in exchanges {
        SettleOne(id, Error);
      }
    }

    method Close(id: RequestID)
      modifies `exchanges, `settled
      ensures Fields() == Step(old(Fields()), CloseOne(id))
    {
      if id in exchanges && exchanges[id].Stream? {
        SettleOne(id, Closed);
      }
    }

    method EndOne(id: RequestID, ghost logs: map<RequestID, seq<Reason>>, ghost before: set<RequestID>)
      requires id in exchanges && exchanges.Keys <= before
      requires forall u :: EndedAt(settled, logs, before, exchanges.Keys, u)
      modifies `exchanges, `settled
      ensures exchanges.Keys == old(exchanges).Keys - {id}
      ensures forall u :: EndedAt(settled, logs, before, exchanges.Keys, u)
    {
      ghost var todo, all := exchanges.Keys, settled;
      assert EndedAt(all, logs, before, todo, id);
      SettleOne(id, Closed);
      forall u ensures EndedAt(settled, logs, before, exchanges.Keys, u) { assert EndedAt(all, logs, before, todo, u); }
    }

    /** Settles every exchange of a snapshot of the map. */
    method End()
      modifies `exchanges, `settled
      ensures Fields() == Step(old(Fields()), EndAll)
    {
      ghost var before, logs := exchanges.Keys, settled;
      var todo := exchanges.Keys;
      while todo != {}
        invariant todo == exchanges.Keys && todo <= before
        invariant forall id :: EndedAt(settled, logs, before, exchanges.Keys, id)
        decreases |todo|
      {
        var id := AnyOf(todo);
        EndOne(id, logs, before);
        todo := todo - {id};
      }
      EndedEvery(settled, logs, before, EndEvery(old(Fields())).settled);
    }

    method Apply(e: Event)
      modifies `exchanges, `delivered, `settled
      ensures Fields() == Step(old(Fields()), e)
    {
      match e
      case Register(id, kind) => Add(id, kind);
      case Response(id, answer) => RouteResponse(id, answer);
      case StreamFrame(id, frame) => RouteStreamFrame(id, frame);
      case CancelOne(id) => CancelExchange(id);
      case FailOne(id) => Fail(id);
      case CloseOne(id) => Close(id);
      case EndAll => End();
    }

    /** Whatever can happen to the registry, with its place in the history. */
    method Handle(e: Event)
      requires Valid() && Fresh(log + [e])
      modifies this
      ensures Valid() && log == old(log) + [e]
    {
      Apply(e);
      assert (log + [e])[..|log + [e]| - 1] == log;
      log := log + [e];
    }

    /** In every registry each exchange is where its own events alone would have brought it. */
    lemma ExchangesLiveAlone(id: RequestID)
      requires Valid()
      ensures Matches(Fields(), id, LifeOf(log, id))
    {
      RegistryIsAllLives(log, id);
    }
  }
}
