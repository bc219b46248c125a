/**
 * Shared value types: Go's nil-or-value pointers and its (value, error)
 * and error-only returns.
 */
module Common {
  /** A pointer that may be nil (None), or a map lookup that may miss. */
  datatype Option<T> = None | Some(value: T)

  /** A Go `(T, error)` return: `Ok` when the error is nil. */
  datatype Result<T> = Ok(value: T) | Err(error: string)

  /** A Go function whose only result is an `error`: `Pass` is nil. */
  datatype Outcome = Pass | Failure(error: string)

  /** What a task hands to `exec.Command`: program, arguments, working directory, environment. */
  datatype Invocation = Invocation(command: string, args: seq<string>, dir: string, env: seq<string>)

  /**
   * `order` lists every key of a map exactly once. Go visits a map in an
   * unspecified order; the model takes that order as a parameter.
   */
  predicate Enumerates<K(==)>(order: seq<K>, keys: set<K>) {
    (forall i, j :: 0 <= i < j < |order| ==> order[i] != order[j]) &&
    Listed(order) == keys
  }

  /** The elements a sequence lists. */
  function Listed<K>(order: seq<K>): set<K> {
    set i | 0 <= i < |order| :: order[i]
  }

  /** What an enumeration lists is a key. */
  lemma EnumeratedKey<K>(order: seq<K>, keys: set<K>, i: nat)
    requires Enumerates(order, keys) && i < |order|
    ensures order[i] in keys
  {
    assert order[i] in Listed(order);
  }

  /** Every key is listed by an enumeration. */
  lemma EnumeratedPosition<K>(order: seq<K>, keys: set<K>, k: K) returns (i: nat)
    requires Enumerates(order, keys) && k in keys
    ensures i < |order| && order[i] == k
  {
    assert k in Listed(order);
    i :| 0 <= i < |order| && order[i] == k;
  }
}
