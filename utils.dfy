/** utils.py: the stand-alone StaircaseAdaptive class. */
module Utils {
  import opened Numeric
  import Staircase

  /** Simple 1-up/2-down staircase; `value` is the current target duration. */
  class StaircaseAdaptive {
    var value: int
    const minMs: int
    const maxMs: int
    const step: int
    var consecutiveHits: nat

    constructor (initialMs: int, minMs: int, maxMs: int, stepMs: int)
      ensures value == initialMs && consecutiveHits == 0
      ensures this.minMs == minMs && this.maxMs == maxMs && step == stepMs
    {
      value := initialMs;
      this.minMs := minMs;
      this.maxMs := maxMs;
      step := stepMs;
      consecutiveHits := 0;
    }

    function Snapshot(): Staircase.State
      reads this
    {
      Staircase.State(value, consecutiveHits)
    }

    function Params(): Staircase.Params
    {
      Staircase.Params(minMs, maxMs, step)
    }

    /** Feed back the outcome of a trial. */
    method Update(hit: bool)
      modifies this
      ensures Snapshot() == Staircase.Next(old(Snapshot()), hit, Params())
    {
      if hit {
        consecutiveHits := consecutiveHits + 1;
        if consecutiveHits >= 2 {
          value := Max(minMs, value - step);
          consecutiveHits := 0;
        }
      } else {
        value := Min(maxMs, value + step);
        consecutiveHits := 0;
      }
    }

    /** The current target duration in milliseconds. */
    method GetMs() returns (ms: int)
      ensures ms == value
    {
      ms := value;
    }
  }
}
