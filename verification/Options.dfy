/** The optional value, and a few facts about sets, for every module of the project. */
module Options {

  datatype Option<+T> = None | Some(value: T) {
    function GetOr(default: T): T {
      match this
      case Some(v) => v
      case None => default
    }
  }

  /** The entry of a finite map, if there is one. */
  function Lookup<K, V>(m: map<K, V>, k: K): (r: Option<V>) {
    if k in m then Some(m[k]) else None
  }

  /** Some member of a set, for loops whose order does not matter. */
  method AnyOf<T(==)>(s: set<T>) returns (x: T)
    requires s != {}
    ensures x in s
  {
    x :| x in s;
  }

  /** Putting one more of a finite set aside leaves fewer of it. */
  lemma FewerLeft<T>(all: set<T>, gone: set<T>, x: T)
    requires x in all && x !in gone
    ensures |all - (gone + {x})| < |all - gone|
  {
    assert all - (gone + {x}) == (all - gone) - {x};
  }
}
