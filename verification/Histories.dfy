/** Histories of state machines: which actions led an object from its first state to the present one. */
module Histories {
  import opened Options

  /** A step gives the next state of an action that can happen, and nothing for one that cannot. */
  ghost predicate Leads<S(!new), A>(step: (S, A) -> Option<S>, states: seq<S>, log: seq<A>, i: nat) {
    i < |log| && i + 1 < |states| && step(states[i], log[i]) == Some(states[i + 1])
  }

  /** The states passed through by the actions of the log, in order. */
  ghost predicate Behaviour<S(!new), A>(step: (S, A) -> Option<S>, states: seq<S>, log: seq<A>) {
    && |states| == |log| + 1
    && forall i: nat {:trigger Leads(step, states, log, i)} :: i < |log| ==> Leads(step, states, log, i)
  }

  /** The actions of the log lead from `first` to `now`. */
  ghost predicate History<S(!new), A>(step: (S, A) -> Option<S>, first: S, log: seq<A>, now: S) {
    exists states :: Behaviour(step, states, log) && states[0] == first && states[|log|] == now
  }

  lemma NoHistory<S(!new), A>(step: (S, A) -> Option<S>, first: S)
    ensures History(step, first, [], first)
  {
    assert Behaviour(step, [first], []);
  }

  lemma HistoryGrows<S(!new), A>(step: (S, A) -> Option<S>, first: S, log: seq<A>, now: S, a: A, next: S)
    requires History(step, first, log, now) && step(now, a) == Some(next)
    ensures History(step, first, log + [a], next)
  {
    var states :| Behaviour(step, states, log) && states[0] == first && states[|log|] == now;
    forall i: nat | i < |log| + 1 ensures Leads(step, states + [next], log + [a], i) {
      if i < |log| { assert Leads(step, states, log, i); }
    }
    assert Behaviour(step, states + [next], log + [a]);
  }

  /** A history begins with its first action, and goes on from there. */
  lemma HistoryFirst<S(!new), A>(step: (S, A) -> Option<S>, first: S, log: seq<A>, now: S)
    requires History(step, first, log, now)
    ensures log == [] ==> now == first
    ensures log != [] ==> step(first, log[0]).Some? && History(step, step(first, log[0]).value, log[1..], now)
  {
    var states :| Behaviour(step, states, log) && states[0] == first && states[|log|] == now;
    if log != [] {
      assert Leads(step, states, log, 0);
      forall i: nat | i < |log| - 1 ensures Leads(step, states[1..], log[1..], i) {
        assert Leads(step, states, log, i + 1);
      }
      assert Behaviour(step, states[1..], log[1..]);
    }
  }
}
