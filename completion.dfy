/** The toggle that marks a day done or not done. */
module Completion {

  /**
    A fresh copy of `done` in which the membership of `d` is flipped:
    `d` is removed when present and added when absent.
   */
  function Toggle(done: set<nat>, d: nat): (next: set<nat>)
    ensures d in next <==> d !in done
    ensures forall x :: x != d ==> (x in next <==> x in done)
    ensures |next| == if d in done then |done| - 1 else |done| + 1
  {
    if d in done then done - {d} else done + {d}
  }

  /** Toggling the same day twice gives back the set it started from. */
  lemma ToggleTwice(done: set<nat>, d: nat)
    ensures Toggle(Toggle(done, d), d) == done
  {
  }

  /** Toggling a day that belongs to a set of identifiers keeps the set inside it. */
  lemma ToggleWithin(done: set<nat>, d: nat, ids: set<nat>)
    requires done <= ids
    requires d in ids
    ensures Toggle(done, d) <= ids
  {
  }
}
