/** The Option and Result datatypes shared by every module of the model. */
module Wrappers {

  /** `null` / `undefined` in the source: a value that may be absent. */
  datatype Option<+T> = None | Some(value: T)

  /** `{ ...base, ...updates }` for one field: the supplied value if there is one. */
  function GetOr<T>(supplied: Option<T>, base: T): T
  {
    if supplied.Some? then supplied.value else base
  }

  /** An operation of the source that either yields a value or throws. */
  datatype Result<+T, +E> = Success(value: T) | Failure(error: E)
}

/** `Math.random()` made explicit: draw number `k` of a run is `random(k)`. */
module Entropy {

  type RandomStream = nat -> real

  /** What `Math.random()` promises of every draw: a number in [0, 1). */
  ghost predicate ValidRandom(random: RandomStream)
  {
    forall k: nat :: 0.0 <= random(k) < 1.0
  }
}
