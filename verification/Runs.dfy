/**
 What the runs of all state machines have in common.
 */
module Runs {
  /** The state that a run has reached. */
  ghost function Last<S>(run: seq<S>): (s: S)
    requires run != []
  {
    run[|run| - 1]
  }
}
