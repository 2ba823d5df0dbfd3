/**
 * The 1-up/2-down staircase rule shared by every StaircaseAdaptive class of
 * the experiment: one miss lengthens the target by one step (at most up to
 * the maximum); two consecutive hits shorten it by one step (at least down
 * to the minimum); a single hit only counts.
 */
module Staircase {
  import opened Numeric

  /** The configuration a staircase is built with. */
  datatype Params = Params(minMs: int, maxMs: int, stepMs: int)

  /** What a staircase remembers between trials. */
  datatype State = State(value: int, consecutiveHits: nat)

  predicate InRange(s: State, p: Params)
  {
    p.minMs <= s.value <= p.maxMs
  }

  /** One update with the outcome of a trial. */
  function Next(s: State, hit: bool, p: Params): (t: State)
    ensures t.consecutiveHits <= 1
    ensures !hit ==> t.consecutiveHits == 0
    ensures !hit ==> t.value == Min(p.maxMs, s.value + p.stepMs)
    ensures hit && s.consecutiveHits == 0 ==> t == State(s.value, 1)
    ensures hit && s.consecutiveHits >= 1 ==> t == State(Max(p.minMs, s.value - p.stepMs), 0)
    ensures t.value != s.value ==> t.consecutiveHits == 0
    ensures InRange(s, p) && p.stepMs >= 0 ==> InRange(t, p)
  {
    if hit then
      if s.consecutiveHits + 1 >= 2 then State(Max(p.minMs, s.value - p.stepMs), 0)
      else State(s.value, s.consecutiveHits + 1)
    else
      State(Min(p.maxMs, s.value + p.stepMs), 0)
  }

  /** The state after a whole sequence of outcomes, oldest first. */
  function Run(s: State, outcomes: seq<bool>, p: Params): State
    decreases |outcomes|
  {
    if outcomes == [] then s else Run(Next(s, outcomes[0], p), outcomes[1..], p)
  }

  /** The bounds invariant: from a value inside [minMs, maxMs] and with a
      non-negative step, no sequence of outcomes leaves the range, and the
      hit counter is 0 or 1 after any non-empty sequence. */
  lemma {:induction false} RunStaysInRange(s: State, outcomes: seq<bool>, p: Params)
    requires InRange(s, p) && p.stepMs >= 0
    ensures InRange(Run(s, outcomes, p), p)
    ensures outcomes != [] ==> Run(s, outcomes, p).consecutiveHits <= 1
    decreases |outcomes|
  {
    if outcomes != [] {
      RunStaysInRange(Next(s, outcomes[0], p), outcomes[1..], p);
    }
  }

  function Misses(k: nat): seq<bool>
  {
    seq(k, _ => false)
  }

  function HitPairs(k: nat): seq<bool>
  {
    seq(2 * k, _ => true)
  }

  /** 1-up: k misses in a row (k >= 1) raise the value by k steps, capped at the maximum. */
  lemma {:induction false} MissesRaise(s: State, k: nat, p: Params)
    requires k >= 1 && p.stepMs >= 0
    ensures Run(s, Misses(k), p) == State(Min(p.maxMs, s.value + k * p.stepMs), 0)
    decreases k
  {
    var t := Next(s, false, p);
    assert Misses(k)[1..] == Misses(k - 1);
    if k > 1 {
      MissesRaise(t, k - 1, p);
      assert (k - 1) * p.stepMs >= 0;
      assert t.value + (k - 1) * p.stepMs == Min(p.maxMs + (k - 1) * p.stepMs, s.value + k * p.stepMs);
    }
  }

  /** 2-down: 2k hits in a row (k >= 1), starting with a cleared counter, lower the
      value by k steps, floored at the minimum. */
  lemma {:induction false} HitPairsLower(s: State, k: nat, p: Params)
    requires k >= 1 && s.consecutiveHits == 0 && p.stepMs >= 0
    ensures Run(s, HitPairs(k), p) == State(Max(p.minMs, s.value - k * p.stepMs), 0)
    decreases k
  {
    var t := Next(Next(s, true, p), true, p);
    assert t == State(Max(p.minMs, s.value - p.stepMs), 0);
    assert HitPairs(k)[1..][1..] == HitPairs(k - 1);
    assert Run(s, HitPairs(k), p) == Run(t, HitPairs(k - 1), p);
    if k > 1 {
      HitPairsLower(t, k - 1, p);
      assert (k - 1) * p.stepMs >= 0;
      assert t.value - (k - 1) * p.stepMs == Max(p.minMs - (k - 1) * p.stepMs, s.value - k * p.stepMs);
    }
  }
}
