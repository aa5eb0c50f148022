/** The wall clock `time.time()`, abstracted to a stream of readings. */
module Clock {

  /** A clock reading, in microseconds. */
  type Time = nat

  /** `time(k)` is the value returned by the k-th call of the clock. Every
      state of the model counts the calls made so far, so each reading the
      source takes is one index of this stream. */
  type Stream = nat -> Time

  /** Reading `i` is no later than reading `j`. */
  ghost predicate InOrder(time: Stream, i: nat, j: nat) {
    time(i) <= time(j)
  }

  /** A clock that never runs backwards. */
  ghost predicate Monotone(time: Stream) {
    forall i: nat, j: nat :: i <= j ==> InOrder(time, i, j)
  }

  lemma Later(time: Stream, i: nat, j: nat)
    requires Monotone(time) && i <= j
    ensures time(i) <= time(j)
  {
    assert InOrder(time, i, j);
  }
}
