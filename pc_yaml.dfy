/**
 * mid_psychopy_pc_yaml.py: the YAML-configured PsychoPy experiment. Its
 * trial step reads the condition's staircase, applies the R-Score rule and
 * the duration cap, judges the response, pays out, updates the staircase
 * and appends the outcome to the R-Score history. Its staircase class is a
 * verbatim copy of the one in utils.py and is modelled by Utils.
 */
module PcYaml {
  import opened Wrappers
  import opened Numeric
  import opened Schedule
  import opened Shuffle
  import opened Trial
  import opened RScore
  import Staircase
  import Utils

  /** 100 * sum(hist) / len(hist) > threshold, cleared of the division
      (the threshold's denominator and the history's length are positive
      wherever the rule reads it). */
  predicate RateAbove(hist: seq<int>, rs: Settings)
  {
    100 * Sum(hist) * rs.thresholdDen > rs.thresholdNum * |hist|
  }

  /** The R-Score rule: when it is enabled and the selected history is not
      empty and its hit rate lies strictly above the threshold, the
      staircase's proposal is scaled, truncated by int() and floored at
      min_ms; otherwise the proposal stands. */
  function ScaledTarget(pre: int, hist: seq<int>, rs: Settings, minMs: int): (t: int)
    requires rs.WellFormed()
    ensures !rs.enabled || hist == [] ==> t == pre
    ensures t != pre ==> rs.enabled && hist != [] && RateAbove(hist, rs) && minMs <= t
  {
    if rs.enabled && hist != [] && RateAbove(hist, rs) then Max(minMs, PyTrunc(pre * rs.scaleNum, rs.scaleDen))
    else pre
  }

  /** A hit rate exactly at the threshold does not trigger scaling. */
  lemma AtThresholdKeeps(pre: int, hist: seq<int>, rs: Settings, minMs: int)
    requires rs.WellFormed() && 100 * Sum(hist) * rs.thresholdDen == rs.thresholdNum * |hist|
    ensures ScaledTarget(pre, hist, rs, minMs) == pre
  {
  }

  /** A hit rate strictly above the threshold, over a non-empty history
      with the rule enabled, replaces the proposal by the scaled, truncated
      and floored duration. */
  lemma AboveThresholdScales(pre: int, hist: seq<int>, rs: Settings, minMs: int)
    requires rs.WellFormed() && rs.enabled && hist != []
    requires 100 * Sum(hist) * rs.thresholdDen > rs.thresholdNum * |hist|
    ensures ScaledTarget(pre, hist, rs, minMs) == Max(minMs, PyTrunc(pre * rs.scaleNum, rs.scaleDen))
  {
  }

  /** With a scale factor in [0, 1] and a proposal at or above min_ms, the
      rule never lengthens the target and never shortens it below min_ms. */
  lemma ScaledTargetWithin(pre: int, hist: seq<int>, rs: Settings, minMs: int)
    requires rs.WellFormed() && rs.Shrinks() && 0 <= minMs <= pre
    ensures minMs <= ScaledTarget(pre, hist, rs, minMs) <= pre
  {
    PyTruncScaleWithin(pre, rs.scaleNum, rs.scaleDen);
  }

  /** The duration the target is shown: the R-Score result, capped at the
      condition's maximum. */
  function FinalTarget(pre: int, hist: seq<int>, rs: Settings, minMs: int, cap: int): (t: int)
    requires rs.WellFormed()
    ensures t <= cap
    ensures t == cap || t == ScaledTarget(pre, hist, rs, minMs)
  {
    Min(ScaledTarget(pre, hist, rs, minMs), cap)
  }

  /** Within the staircase's range the final duration lies between the
      smaller of min_ms and the cap, and the staircase's proposal. */
  lemma FinalTargetWithin(pre: int, hist: seq<int>, rs: Settings, minMs: int, cap: int)
    requires rs.WellFormed() && rs.Shrinks() && 0 <= minMs <= pre
    ensures Min(minMs, cap) <= FinalTarget(pre, hist, rs, minMs, cap) <= pre
  {
    ScaledTargetWithin(pre, hist, rs, minMs);
  }

  /** One staircase per label, each capped at its condition's maximum
      (the per-condition value when configured, else max_ms). */
  method BuildStairs(labels: seq<string>, initialMs: int, minMs: int, maxMs: int, stepMs: int,
                     perConditionMax: map<string, int>) returns (stairs: map<string, Utils.StaircaseAdaptive>)
    ensures forall l :: l in stairs <==> l in labels
    ensures forall a, b :: a in stairs && b in stairs && a != b ==> stairs[a] != stairs[b]
    ensures forall l :: l in stairs ==> fresh(stairs[l])
    ensures forall l :: l in stairs ==>
              && stairs[l].Snapshot() == Staircase.State(initialMs, 0)
              && stairs[l].Params() == Staircase.Params(minMs, CapOf(l, perConditionMax, maxMs), stepMs)
  {
    stairs := map[];
    for i := 0 to |labels|
      invariant forall l :: l in stairs <==> l in labels[..i]
      invariant forall a, b :: a in stairs && b in stairs && a != b ==> stairs[a] != stairs[b]
      invariant forall l :: l in stairs ==> fresh(stairs[l])
      invariant forall l :: l in stairs ==>
                  && stairs[l].Snapshot() == Staircase.State(initialMs, 0)
                  && stairs[l].Params() == Staircase.Params(minMs, CapOf(l, perConditionMax, maxMs), stepMs)
    {
      var stair := new Utils.StaircaseAdaptive(initialMs, minMs, CapOf(labels[i], perConditionMax, maxMs), stepMs);
      stairs := stairs[labels[i] := stair];
      assert labels[..i + 1] == labels[..i] + [labels[i]];
    }
    assert labels[..|labels|] == labels;
  }

  /** The staircases for the keys of the condition table. */
  method TableStairs(conditions: seq<Condition>, initialMs: int, minMs: int, maxMs: int, stepMs: int,
                     perConditionMax: map<string, int>) returns (stairs: map<string, Utils.StaircaseAdaptive>)
    ensures stairs.Keys == MetaOf(conditions).Keys
    ensures forall a, b :: a in stairs && b in stairs && a != b ==> stairs[a] != stairs[b]
    ensures forall l :: l in stairs ==> fresh(stairs[l])
    ensures forall l :: l in stairs ==>
              && stairs[l].Snapshot() == Staircase.State(initialMs, 0)
              && stairs[l].Params() == Staircase.Params(minMs, CapOf(l, perConditionMax, maxMs), stepMs)
  {
    DedupLabelsAreKeys(conditions);
    stairs := BuildStairs(Dedup(LabelsOf(conditions)), initialMs, minMs, maxMs, stepMs, perConditionMax);
  }

  /** The state run_trial works on: the condition table, a staircase per
      condition, the running points total and the R-Score history, one
      deque for all trials or one per condition. */
  class Session {
    const meta: map<string, Condition>
    const stairs: map<string, Utils.StaircaseAdaptive>
    const rscore: Settings
    const minMs: int
    const maxMs: int
    const stepMs: int
    const perConditionMax: map<string, int>
    var pointsTotal: int
    var globalHist: seq<int>
    var condHist: map<string, seq<int>>

    /** Every condition has its own staircase, built with the session's
        bounds; only the history the scope selects is in use, and no
        history is longer than the window. */
    ghost predicate Valid()
      reads this
    {
      && stairs.Keys == meta.Keys
      && (forall a, b :: a in stairs && b in stairs && a != b ==> stairs[a] != stairs[b])
      && (forall l :: l in stairs ==>
            stairs[l].Params() == Staircase.Params(minMs, CapOf(l, perConditionMax, maxMs), stepMs))
      && rscore.WellFormed()
      && (rscore.perCondition ==> globalHist == [] && condHist.Keys == meta.Keys)
      && (!rscore.perCondition ==> condHist == map[] && |globalHist| <= rscore.window)
      && (forall l :: l in condHist ==> |condHist[l]| <= rscore.window)
    }

    /** Every staircase's value lies within its own bounds. */
    ghost predicate StairsInRange()
      reads this, stairs.Values
    {
      forall l :: l in stairs ==> Staircase.InRange(stairs[l].Snapshot(), stairs[l].Params())
    }

    /** The history the R-Score rule reads for a condition. */
    function HistoryOf(name: string): seq<int>
      reads this
      requires Valid() && name in meta
    {
      if rscore.perCondition then condHist[name] else globalHist
    }

    /** The set-up before the first trial: the condition table, the
        staircases, the starting points and empty histories. */
    constructor (conditions: seq<Condition>, initialMs: int, minMs: int, maxMs: int, stepMs: int,
                 perConditionMax: map<string, int>, rscore: Settings, pointsStart: int)
      requires rscore.WellFormed()
      ensures Valid()
      ensures meta == MetaOf(conditions) && this.rscore == rscore && this.perConditionMax == perConditionMax
      ensures this.minMs == minMs && this.maxMs == maxMs && this.stepMs == stepMs
      ensures forall l :: l in stairs ==> fresh(stairs[l]) && stairs[l].Snapshot() == Staircase.State(initialMs, 0)
      ensures pointsTotal == pointsStart && globalHist == []
      ensures condHist == if rscore.perCondition then EmptyHistories(meta.Keys) else map[]
    {
      var table := MetaOf(conditions);
      var built := TableStairs(conditions, initialMs, minMs, maxMs, stepMs, perConditionMax);
      meta := table;
      stairs := built;
      this.rscore := rscore;
      this.minMs := minMs;
      this.maxMs := maxMs;
      this.stepMs := stepMs;
      this.perConditionMax := perConditionMax;
      pointsTotal := pointsStart;
      globalHist := [];
      condHist := if rscore.perCondition then EmptyHistories(table.Keys) else map[];
    }

    /** run_trial without its display and timing: the condition's
        staircase proposes a duration, the R-Score rule and the cap turn it
        into the shown duration, a response at or before that duration is a
        hit, the condition's payoff is added, only that condition's
        staircase is updated, and the outcome is appended to the history
        the rule read. rt is the reaction time in whole milliseconds, None
        without a response. */
    method RunTrial(cond: string, rt: Option<int>) returns (o: Record)
      requires Valid() && cond in meta
      modifies this, stairs[cond]
      ensures Valid()
      ensures o.condition == cond
      ensures o.targetMsPre == old(stairs[cond].value)
      ensures o.targetMs == FinalTarget(o.targetMsPre, old(HistoryOf(cond)), rscore, minMs,
                                        CapOf(cond, perConditionMax, maxMs))
      ensures o.hit <==> rt.Some? && rt.value <= o.targetMs
      ensures o.deltaPoints == if o.hit then meta[cond].pointsHit else meta[cond].pointsMiss
      ensures pointsTotal == old(pointsTotal) + o.deltaPoints && o.pointsTotal == pointsTotal
      ensures stairs[cond].Snapshot() == Staircase.Next(old(stairs[cond].Snapshot()), o.hit, stairs[cond].Params())
      ensures forall l :: l in stairs && l != cond ==> stairs[l].Snapshot() == old(stairs[l].Snapshot())
      ensures rscore.perCondition ==>
                condHist == old(condHist)[cond := DequeAppend(old(condHist[cond]), Bit(o.hit), rscore.window)]
      ensures !rscore.perCondition ==>
                globalHist == DequeAppend(old(globalHist), Bit(o.hit), rscore.window)
      ensures old(StairsInRange()) && stepMs >= 0 ==> StairsInRange()
    {
      var condition := meta[cond];
      var stair := stairs[cond];
      var pre := stair.GetMs();
      var target := FinalTarget(pre, HistoryOf(cond), rscore, minMs, CapOf(cond, perConditionMax, maxMs));
      var hit := rt.Some? && rt.value <= target;
      var delta := if hit then condition.pointsHit else condition.pointsMiss;
      pointsTotal := pointsTotal + delta;
      stair.Update(hit);
      if rscore.perCondition {
        condHist := condHist[cond := DequeAppend(condHist[cond], Bit(hit), rscore.window)];
      } else {
        globalHist := DequeAppend(globalHist, Bit(hit), rscore.window);
      }
      o := Record(cond, pre, target, hit, delta, pointsTotal);
    }
  }

  /** The extend loop of make_trials and of the block builder: label i
      repeated n // k times, once more for the first n % k labels, then
      shuffled. A negative n makes every repetition empty. */
  method BalancedTrials(labels: seq<string>, n: int, draws: seq<int>) returns (trials: seq<string>)
    requires |labels| > 0
    requires ValidDraws(draws) && n <= |draws|
    ensures n < 0 ==> trials == []
    ensures n >= 0 ==> trials == Shuffled(Balanced(labels, n), draws)
    ensures n >= 0 ==> |trials| == n
    ensures forall x :: x in trials ==> x in labels
    ensures n >= 0 && Distinct(labels) ==>
              forall i :: 0 <= i < |labels| ==> multiset(trials)[labels[i]] == Share(n, |labels|, i)
  {
    var k := |labels|;
    var base := n / k;
    var rem := n % k;
    if n < 0 {
      FloorDivNegative(n, k);
    }
    trials := [];
    for i := 0 to k
      invariant n >= 0 ==> trials == Concat(labels, BalancedCounts(n, k), i)
      invariant n < 0 ==> trials == []
    {
      var count := base + (if i < rem then 1 else 0);
      assert n >= 0 ==> count == BalancedCounts(n, k)[i];
      if count > 0 {
        trials := trials + Repeat(labels[i], count);
      }
    }
    if n >= 0 {
      assert trials == Balanced(labels, n);
      ShuffledBalancedFacts(labels, n, draws);
      trials := Shuffled(trials, draws);
    }
  }

  /** make_trials: the labels of the condition table, in the table's key
      order, balanced over n trials and shuffled. */
  method MakeTrials(conditions: seq<Condition>, n: int, draws: seq<int>) returns (trials: seq<string>)
    requires conditions != []
    requires ValidDraws(draws) && n <= |draws|
    ensures n >= 0 ==> trials == Shuffled(Balanced(Dedup(LabelsOf(conditions)), n), draws)
    ensures n >= 0 ==> |trials| == n
    ensures n < 0 ==> trials == []
    ensures forall x :: x in trials ==> x in MetaOf(conditions)
    ensures n >= 0 ==> forall i :: 0 <= i < |Dedup(LabelsOf(conditions))| ==>
              multiset(trials)[Dedup(LabelsOf(conditions))[i]] == Share(n, |Dedup(LabelsOf(conditions))|, i)
  {
    var labels := Dedup(LabelsOf(conditions));
    assert LabelsOf(conditions)[0] in labels;
    trials := BalancedTrials(labels, n, draws);
    forall x | x in trials ensures x in MetaOf(conditions) {
      var i :| 0 <= i < |conditions| && LabelsOf(conditions)[i] == x;
    }
  }

  /** The block builder: the same balancing over the labels of the raw
      condition list, in list order. */
  method BlockTrials(conditions: seq<Condition>, n: int, draws: seq<int>) returns (trials: seq<string>)
    requires conditions != []
    requires ValidDraws(draws) && n <= |draws|
    ensures n >= 0 ==> trials == Shuffled(Balanced(LabelsOf(conditions), n), draws)
    ensures n >= 0 ==> |trials| == n
    ensures n < 0 ==> trials == []
    ensures forall x :: x in trials ==> x in MetaOf(conditions)
  {
    trials := BalancedTrials(LabelsOf(conditions), n, draws);
    forall x | x in trials ensures x in MetaOf(conditions) {
      var i :| 0 <= i < |conditions| && LabelsOf(conditions)[i] == x;
    }
  }

  /** The repetitions of each label in the practice list. */
  function PracticePer(k: nat, n: int): (per: nat)
    requires k > 0 && n > 0
    ensures per >= 1 && per * k >= Min(n, k)
    ensures n < k ==> per == 1
    ensures n >= k ==> per * k <= n < (per + 1) * k
  {
    DivBounds(n, k);
    MulStep(n / k, k);
    Max(1, n / k)
  }

  /** The practice list, built only when practice_trials is positive:
      every label of the condition list max(1, n // k) times, shuffled. It
      has k * max(1, n // k) entries, which differs from n unless k
      divides n. */
  method PracticeTrials(conditions: seq<Condition>, n: int, draws: seq<int>) returns (trials: seq<string>)
    requires n > 0 ==> conditions != [] && |conditions| * PracticePer(|conditions|, n) <= |draws|
    requires ValidDraws(draws)
    ensures n <= 0 ==> trials == []
    ensures n > 0 ==> trials == Shuffled(Each(LabelsOf(conditions), PracticePer(|conditions|, n)), draws)
    ensures n > 0 ==> |trials| == |conditions| * PracticePer(|conditions|, n)
    ensures n > 0 && Distinct(LabelsOf(conditions)) ==>
              forall i :: 0 <= i < |conditions| ==> multiset(trials)[conditions[i].name] == PracticePer(|conditions|, n)
  {
    if n <= 0 {
      return [];
    }
    var labels := LabelsOf(conditions);
    var per := Max(1, n / |labels|);
    trials := [];
    for i := 0 to |labels|
      invariant trials == Concat(labels, Uniform(|labels|, per), i)
    {
      trials := trials + Repeat(labels[i], per);
    }
    assert trials == Each(labels, per);
    EachFacts(labels, per);
    trials := Shuffled(trials, draws);
  }
}
