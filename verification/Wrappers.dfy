/** Shared result types.  `Outcome` is what a step of a journaled transaction
    returns: it is failure-compatible, so `:-` propagates a failure the way the
    source propagates an exception. */
module Wrappers {

  datatype Option<+T> = None | Some(value: T)

  /** What the surroundings do at the next durable step: let it happen, make it
      raise without effect, or cut the power before it happens. */
  datatype Event = Proceed | Raise | PowerCut

  /** Why a call did not finish.  `Crashed` is the end of the process: no handler
      runs after it.  Every other failure is an exception a handler can catch. */
  datatype Failure = Crashed | StepRaised | Refused(reason: string)

  datatype Outcome = Done | Failed(error: Failure) {

    predicate IsFailure() {
      Failed?
    }

    function PropagateFailure(): Outcome
      requires Failed?
    {
      this
    }

    /** An exception, as opposed to success or the end of the process. */
    predicate Raised() {
      Failed? && !error.Crashed?
    }
  }

  function OutcomeOf(event: Event): Outcome {
    match event
    case Proceed => Done
    case Raise => Failed(StepRaised)
    case PowerCut => Failed(Crashed)
  }

  function Get<K, V>(m: map<K, V>, k: K): Option<V> {
    if k in m then Some(m[k]) else None
  }

  /** The map after writing `v` at `k`, or after deleting `k`. */
  function Put<K(!new), V>(m: map<K, V>, k: K, v: Option<V>): (r: map<K, V>)
    ensures Get(r, k) == v
    ensures forall other :: other != k ==> Get(r, other) == Get(m, other)
  {
    match v
    case Some(value) => m[k := value]
    case None => m - {k}
  }

  lemma SameLookups<K(!new), V>(m: map<K, V>, n: map<K, V>)
    requires forall k :: Get(m, k) == Get(n, k)
    ensures m == n
  {
    forall k ensures k in m <==> k in n {
      assert Get(m, k) == Get(n, k);
    }
    forall k | k in m ensures m[k] == n[k] {
      assert Get(m, k) == Get(n, k);
    }
  }
}
