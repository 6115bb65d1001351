/** Lists of clock readings, oldest first, and how many of them lie in an interval. */
module Timelines {
  predicate Sorted(times: seq<nat>) {
    forall i, j :: 0 <= i <= j < |times| ==> times[i] <= times[j]
  }

  /** How many times lie in the closed interval from `lo` to `hi`. */
  function CountBetween(times: seq<nat>, lo: int, hi: int): nat {
    if times == [] then 0
    else CountBetween(times[..|times| - 1], lo, hi) + (if lo <= times[|times| - 1] <= hi then 1 else 0)
  }
}
