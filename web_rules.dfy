/**
 * The rules the two JavaScript versions (mid_psychojs.js and
 * electron-app/mid_web_electron.js) share word for word: their
 * StaircaseAdaptive class, makeTrials with its in-place Fisher-Yates loop,
 * uniformJitter, and the R-Score rule of runTrial, which differs from the
 * Python one: it waits for a full window, compares with >=, rounds with
 * Math.round and has no floor.
 */
module WebRules {
  import opened Numeric
  import opened Schedule
  import opened Shuffle
  import opened Trial
  import opened RScore
  import Staircase

  /** The JavaScript staircase: the same 1-up/2-down rule, with a miss
      counter that is raised and cleared within the same update. */
  class StaircaseAdaptive {
    var currentMs: int
    const minMs: int
    const maxMs: int
    const stepMs: int
    var consecutiveMisses: int
    var consecutiveHits: nat

    constructor (initialMs: int, minMs: int, maxMs: int, stepMs: int)
      ensures currentMs == initialMs && consecutiveMisses == 0 && consecutiveHits == 0
      ensures this.minMs == minMs && this.maxMs == maxMs && this.stepMs == stepMs
    {
      currentMs := initialMs;
      this.minMs := minMs;
      this.maxMs := maxMs;
      this.stepMs := stepMs;
      consecutiveMisses := 0;
      consecutiveHits := 0;
    }

    function Snapshot(): Staircase.State
      reads this
    {
      Staircase.State(currentMs, consecutiveHits)
    }

    function Params(): Staircase.Params
    {
      Staircase.Params(minMs, maxMs, stepMs)
    }

    method GetCurrentDuration() returns (ms: int)
      ensures ms == currentMs
    {
      ms := currentMs;
    }

    /** Feed back the outcome of a trial; the miss counter is 0 afterwards
        whatever the outcome. */
    method Update(hit: bool)
      modifies this
      ensures Snapshot() == Staircase.Next(old(Snapshot()), hit, Params())
      ensures consecutiveMisses == 0
    {
      if hit {
        consecutiveHits := consecutiveHits + 1;
        consecutiveMisses := 0;
        if consecutiveHits >= 2 {
          currentMs := Max(minMs, currentMs - stepMs);
          consecutiveHits := 0;
        }
      } else {
        consecutiveMisses := consecutiveMisses + 1;
        consecutiveHits := 0;
        currentMs := Min(maxMs, currentMs + stepMs);
        consecutiveMisses := 0;
      }
    }
  }

  /** hist.slice(-window) on a history holding at least `window` entries:
      the newest `window` of them; slice(-0) is the whole array. */
  function Recent(hist: seq<int>, w: nat): (r: seq<int>)
    requires w <= |hist|
    ensures |r| == if w == 0 then |hist| else w
    ensures r == hist[|hist| - |r|..]
  {
    if w == 0 then hist else hist[|hist| - w..]
  }

  /** (sum / length) * 100 >= threshold, cleared of the division; an empty
      slice gives NaN, which compares false. */
  predicate RateAtLeast(recent: seq<int>, rs: Settings)
  {
    |recent| > 0 && 100 * Sum(recent) * rs.thresholdDen >= rs.thresholdNum * |recent|
  }

  /** The JavaScript R-Score rule: only with at least `window` entries in
      the selected history, and a hit rate over the newest `window` of
      them at or above the threshold, is the proposal scaled and rounded
      with Math.round; there is no floor at min_ms. */
  function ScaledTarget(pre: int, hist: seq<int>, rs: Settings): (t: int)
    requires rs.WellFormed()
    ensures !rs.enabled || |hist| < rs.window ==> t == pre
    ensures t != pre ==> rs.enabled && rs.window <= |hist| && RateAtLeast(Recent(hist, rs.window), rs)
  {
    if rs.enabled && rs.window <= |hist| && RateAtLeast(Recent(hist, rs.window), rs) then
      JsRound(pre * rs.scaleNum, rs.scaleDen)
    else pre
  }

  /** A full window whose hit rate equals the threshold does trigger
      scaling, unlike the Python rule. */
  lemma AtThresholdScales(pre: int, hist: seq<int>, rs: Settings)
    requires rs.WellFormed() && rs.enabled && 0 < rs.window <= |hist|
    requires 100 * Sum(Recent(hist, rs.window)) * rs.thresholdDen == rs.thresholdNum * rs.window
    ensures ScaledTarget(pre, hist, rs) == JsRound(pre * rs.scaleNum, rs.scaleDen)
  {
  }

  /** With a scale factor in [0, 1] the rule never lengthens a
      non-negative proposal and never makes it negative. */
  lemma ScaledTargetWithin(pre: int, hist: seq<int>, rs: Settings)
    requires rs.WellFormed() && rs.Shrinks() && 0 <= pre
    ensures 0 <= ScaledTarget(pre, hist, rs) <= pre
  {
    JsRoundScaleWithin(pre, rs.scaleNum, rs.scaleDen);
  }

  /** Without a floor, scaling can go below min_ms: from the minimum 120 ms
      a rate of 100% and scale 0.9 give 108 ms. */
  lemma ScalingCanUndercutMinimum()
    ensures ScaledTarget(120, [1], Settings(true, 1, 75, 1, 9, 10, false)) == 108
  {
    assert Sum([1]) == 1 by {
      assert [1][..0] == [];
    }
  }

  /** The duration the target is shown: the R-Score result, capped at the
      condition's maximum. */
  function FinalTarget(pre: int, hist: seq<int>, rs: Settings, cap: int): (t: int)
    requires rs.WellFormed()
    ensures t <= cap
    ensures t == cap || t == ScaledTarget(pre, hist, rs)
  {
    Min(ScaledTarget(pre, hist, rs), cap)
  }

  /** uniformJitter([min, max]) with Math.floor(Math.random() * (max - min + 1))
      passed in as draw. */
  function UniformJitter(lo: int, hi: int, draw: int): (v: int)
    requires 0 <= draw <= hi - lo
    ensures lo <= v <= hi
    ensures v - lo == draw
  {
    draw + lo
  }

  /** Every whole number in [min, max] is a possible jitter. */
  lemma JitterCoversRange(lo: int, hi: int, v: int)
    requires lo <= v <= hi
    ensures exists draw :: 0 <= draw <= hi - lo && UniformJitter(lo, hi, draw) == v
  {
    assert UniformJitter(lo, hi, v - lo) == v;
  }

  /** JavaScript's n % k for k > 0: the remainder takes the sign of n. */
  function JsRem(n: int, k: int): (r: int)
    requires k > 0
    ensures n >= 0 ==> r == n % k
    ensures n < 0 ==> -k < r <= 0
  {
    if n >= 0 then n % k else -((-n) % k)
  }

  /** makeTrials: the keys of the condition table in order, each pushed
      n / k times (once more for the first n % k), then shuffled in place by
      the Fisher-Yates loop, which swaps position i with draws[i] for i from
      the last position down to 1. Without conditions, or with a negative
      n, nothing is pushed. */
  method MakeTrials(labels: seq<string>, n: int, draws: seq<int>) returns (trials: seq<string>)
    requires Distinct(labels)
    requires ValidDraws(draws) && n <= |draws|
    ensures labels == [] || n < 0 ==> trials == []
    ensures labels != [] && n >= 0 ==> trials == Shuffled(Balanced(labels, n), draws)
    ensures labels != [] && n >= 0 ==> |trials| == n
    ensures forall x :: x in trials ==> x in labels
    ensures labels != [] && n >= 0 ==>
              forall i :: 0 <= i < |labels| ==> multiset(trials)[labels[i]] == Share(n, |labels|, i)
  {
    if labels == [] {
      return [];
    }
    var pre := PushBalanced(labels, n);
    if n < 0 {
      return pre;
    }
    BalancedFacts(labels, n);
    var a := new string[|pre|](i requires 0 <= i < |pre| => pre[i]);
    assert a[..] == pre;
    SwapLoop(a, draws);
    trials := a[..];
    forall x | x in trials ensures x in labels {
      assert x in multiset(pre);
    }
  }

  /** The push loops of makeTrials. */
  method PushBalanced(labels: seq<string>, n: int) returns (trials: seq<string>)
    requires labels != []
    ensures n < 0 ==> trials == []
    ensures n >= 0 ==> trials == Balanced(labels, n)
  {
    var k := |labels|;
    var base := n / k;
    var rem := JsRem(n, k);
    trials := [];
    for i := 0 to k
      invariant n >= 0 ==> trials == Concat(labels, BalancedCounts(n, k), i)
      invariant n < 0 ==> trials == []
    {
      var count := base + (if i < rem then 1 else 0);
      assert n < 0 ==> count < 0;
      ghost var before := trials;
      var j := 0;
      while j < count
        invariant 0 <= j <= Max(count, 0)
        invariant trials == before + Repeat(labels[i], j)
      {
        trials := trials + [labels[i]];
        j := j + 1;
      }
    }
  }
}

/**
 * The per-page state of the JavaScript versions and the bookkeeping of
 * runTrial, which both files carry out identically.
 */
module WebSession {
  import opened Wrappers
  import opened Trial
  import opened RScore
  import Staircase
  import WebRules

  /** condStaircase: a staircase per key of the condition table, all with
      the global settings. */
  method BuildStairs(labels: seq<string>, initialMs: int, minMs: int, maxMs: int, stepMs: int)
    returns (stairs: map<string, WebRules.StaircaseAdaptive>)
    ensures forall l :: l in stairs <==> l in labels
    ensures forall a, b :: a in stairs && b in stairs && a != b ==> stairs[a] != stairs[b]
    ensures forall l :: l in stairs ==> fresh(stairs[l])
    ensures forall l :: l in stairs ==>
              && stairs[l].Snapshot() == Staircase.State(initialMs, 0)
              && stairs[l].consecutiveMisses == 0
              && stairs[l].Params() == Staircase.Params(minMs, maxMs, stepMs)
  {
    stairs := map[];
    for i := 0 to |labels|
      invariant forall l :: l in stairs <==> l in labels[..i]
      invariant forall a, b :: a in stairs && b in stairs && a != b ==> stairs[a] != stairs[b]
      invariant forall l :: l in stairs ==> fresh(stairs[l])
      invariant forall l :: l in stairs ==>
                  && stairs[l].Snapshot() == Staircase.State(initialMs, 0)
                  && stairs[l].consecutiveMisses == 0
                  && stairs[l].Params() == Staircase.Params(minMs, maxMs, stepMs)
    {
      var stair := new WebRules.StaircaseAdaptive(initialMs, minMs, maxMs, stepMs);
      stairs := stairs[labels[i] := stair];
      assert labels[..i + 1] == labels[..i] + [labels[i]];
    }
    assert labels[..|labels|] == labels;
  }

  /** The staircases for the keys of the condition table. */
  method TableStairs(conditions: seq<Condition>, initialMs: int, minMs: int, maxMs: int, stepMs: int)
    returns (stairs: map<string, WebRules.StaircaseAdaptive>)
    ensures stairs.Keys == MetaOf(conditions).Keys
    ensures forall a, b :: a in stairs && b in stairs && a != b ==> stairs[a] != stairs[b]
    ensures forall l :: l in stairs ==> fresh(stairs[l])
    ensures forall l :: l in stairs ==>
              && stairs[l].Snapshot() == Staircase.State(initialMs, 0)
              && stairs[l].consecutiveMisses == 0
              && stairs[l].Params() == Staircase.Params(minMs, maxMs, stepMs)
  {
    DedupLabelsAreKeys(conditions);
    stairs := BuildStairs(Dedup(LabelsOf(conditions)), initialMs, minMs, maxMs, stepMs);
  }

  /** condMeta, condStaircase, pointsTotal and rscoreHist (one array, or
      one array per condition under the per_condition scope). An exception
      thrown inside runTrial leaves runExperiment, so after one the
      experiment runs no further trial: ended records that. */
  class Session {
    const meta: map<string, Condition>
    const stairs: map<string, WebRules.StaircaseAdaptive>
    const rscore: Settings
    const minMs: int
    const maxMs: int
    const stepMs: int
    /** config.staircase.per_condition_max_ms, None when the key is absent
        or null: neither JavaScript file supplies a default for it. */
    const perConditionMax: Option<map<string, int>>
    var pointsTotal: int
    var globalHist: seq<int>
    var condHist: map<string, seq<int>>
    var ended: bool

    /** Every condition has its own staircase with the global settings;
        only the history the scope selects is in use, and no history is
        longer than the window. */
    ghost predicate Valid()
      reads this
    {
      && stairs.Keys == meta.Keys
      && (forall a, b :: a in stairs && b in stairs && a != b ==> stairs[a] != stairs[b])
      && (forall l :: l in stairs ==> stairs[l].Params() == Staircase.Params(minMs, maxMs, stepMs))
      && rscore.WellFormed()
      && (rscore.perCondition ==> globalHist == [] && condHist.Keys == meta.Keys)
      && (!rscore.perCondition ==> condHist == map[] && |globalHist| <= rscore.window)
      && (forall l :: l in condHist ==> |condHist[l]| <= rscore.window)
    }

    /** Every staircase's value lies within [min_ms, max_ms]. */
    ghost predicate StairsInRange()
      reads this, stairs.Values
    {
      forall l :: l in stairs ==> Staircase.InRange(stairs[l].Snapshot(), stairs[l].Params())
    }

    /** The history the R-Score rule reads for a condition. */
    function HistoryOf(name: string): seq<int>
      reads this
      requires Valid() && name in meta
    {
      if rscore.perCondition then condHist[name] else globalHist
    }

    /** setupExperiment without its stimuli. pointsStart is
        config.points.start when it is a number, None when it is absent or
        null; `|| 0` turns both None and 0 into 0. */
    constructor (conditions: seq<Condition>, initialMs: int, minMs: int, maxMs: int, stepMs: int,
                 perConditionMax: Option<map<string, int>>, rscore: Settings, pointsStart: Option<int>)
      requires rscore.WellFormed()
      ensures Valid() && !ended
      ensures meta == MetaOf(conditions) && this.rscore == rscore && this.perConditionMax == perConditionMax
      ensures this.minMs == minMs && this.maxMs == maxMs && this.stepMs == stepMs
      ensures forall l :: l in stairs ==> fresh(stairs[l]) && stairs[l].Snapshot() == Staircase.State(initialMs, 0)
      ensures pointsTotal == (if pointsStart.Some? then pointsStart.value else 0)
      ensures globalHist == []
      ensures condHist == if rscore.perCondition then EmptyHistories(meta.Keys) else map[]
    {
      var table := MetaOf(conditions);
      var built := TableStairs(conditions, initialMs, minMs, maxMs, stepMs);
      meta := table;
      stairs := built;
      this.rscore := rscore;
      this.minMs := minMs;
      this.maxMs := maxMs;
      this.stepMs := stepMs;
      this.perConditionMax := perConditionMax;
      pointsTotal := if pointsStart.Some? then pointsStart.value else 0;
      globalHist := [];
      condHist := if rscore.perCondition then EmptyHistories(table.Keys) else map[];
      ended := false;
    }

    /** runTrial without its display and timing: the staircase's value is
        captured and the R-Score rule computed; looking the condition up in
        per_condition_max_ms throws when that map is absent, before
        anything has changed. Otherwise the cap gives the shown duration, a
        response strictly before it is a hit, the staircase and the points
        total are updated; then the monetary feedback looks up 'NEUTRAL'
        after a miss, which throws when there is no such condition, before
        the outcome is pushed onto the history. A throw (completed = false)
        ends the experiment. On the first throw o holds only the fields
        computed before it: the condition and targetMsPre. rt is the
        rounded reaction time in milliseconds, None without a response. */
    method RunTrial(cond: string, rt: Option<int>) returns (o: Record, completed: bool)
      requires Valid() && !ended && cond in meta
      modifies this, stairs[cond]
      ensures Valid()
      ensures ended <==> !completed
      ensures o.condition == cond
      ensures o.targetMsPre == old(stairs[cond].currentMs)
      // the lookup of the per-condition maximum throws: nothing changes
      ensures perConditionMax.None? ==>
                && !completed
                && pointsTotal == old(pointsTotal)
                && globalHist == old(globalHist) && condHist == old(condHist)
                && stairs[cond].Snapshot() == old(stairs[cond].Snapshot())
                && stairs[cond].consecutiveMisses == old(stairs[cond].consecutiveMisses)
      ensures perConditionMax.Some? ==>
                o.targetMs == WebRules.FinalTarget(o.targetMsPre, old(HistoryOf(cond)), rscore,
                                                   CapOf(cond, perConditionMax.value, maxMs))
      ensures perConditionMax.Some? ==> (o.hit <==> rt.Some? && rt.value < o.targetMs)
      ensures perConditionMax.Some? ==>
                o.deltaPoints == if o.hit then meta[cond].pointsHit else meta[cond].pointsMiss
      ensures perConditionMax.Some? ==> pointsTotal == old(pointsTotal) + o.deltaPoints && o.pointsTotal == pointsTotal
      ensures perConditionMax.Some? ==>
                && stairs[cond].Snapshot() == Staircase.Next(old(stairs[cond].Snapshot()), o.hit, stairs[cond].Params())
                && stairs[cond].consecutiveMisses == 0
      ensures forall l :: l in stairs && l != cond ==> stairs[l].Snapshot() == old(stairs[l].Snapshot())
      ensures perConditionMax.Some? ==> (completed <==> o.hit || "NEUTRAL" in meta)
      ensures !completed ==> globalHist == old(globalHist) && condHist == old(condHist)
      ensures completed && rscore.perCondition ==>
                condHist == old(condHist)[cond := PushShift(old(condHist[cond]), Bit(o.hit), rscore.window)]
      ensures completed && !rscore.perCondition ==>
                globalHist == PushShift(old(globalHist), Bit(o.hit), rscore.window)
      ensures old(StairsInRange()) && stepMs >= 0 ==> StairsInRange()
    {
      if perConditionMax.None? {
        var pre := stairs[cond].GetCurrentDuration();
        ended := true;
        return Record(cond, pre, pre, false, 0, pointsTotal), false;
      }
      o := ScoreTrial(cond, rt, perConditionMax.value);
      if !o.hit && "NEUTRAL" !in meta {
        ended := true;
        return o, false;
      }
      PushOutcome(cond, o.hit);
      completed := true;
    }

    /** The part of runTrial between the lookup of the per-condition
        maximum and the monetary feedback: the shown duration, the hit,
        the staircase update and the points. */
    method ScoreTrial(cond: string, rt: Option<int>, caps: map<string, int>) returns (o: Record)
      requires Valid() && cond in meta
      modifies this`pointsTotal, stairs[cond]
      ensures Valid()
      ensures o.condition == cond
      ensures o.targetMsPre == old(stairs[cond].currentMs)
      ensures o.targetMs == WebRules.FinalTarget(o.targetMsPre, HistoryOf(cond), rscore, CapOf(cond, caps, maxMs))
      ensures o.hit <==> rt.Some? && rt.value < o.targetMs
      ensures o.deltaPoints == if o.hit then meta[cond].pointsHit else meta[cond].pointsMiss
      ensures pointsTotal == old(pointsTotal) + o.deltaPoints && o.pointsTotal == pointsTotal
      ensures stairs[cond].Snapshot() == Staircase.Next(old(stairs[cond].Snapshot()), o.hit, stairs[cond].Params())
      ensures stairs[cond].consecutiveMisses == 0
      ensures forall l :: l in stairs && l != cond ==> stairs[l].Snapshot() == old(stairs[l].Snapshot())
      ensures old(StairsInRange()) && stepMs >= 0 ==> StairsInRange()
    {
      var condition := meta[cond];
      var stair := stairs[cond];
      var pre := stair.GetCurrentDuration();
      var target := WebRules.FinalTarget(pre, HistoryOf(cond), rscore, CapOf(cond, caps, maxMs));
      var hit := rt.Some? && rt.value < target;
      stair.Update(hit);
      var delta := if hit then condition.pointsHit else condition.pointsMiss;
      pointsTotal := pointsTotal + delta;
      o := Record(cond, pre, target, hit, delta, pointsTotal);
    }

    /** The R-Score history update at the end of runTrial: push, then
        shift once the array is longer than the window. */
    method PushOutcome(cond: string, hit: bool)
      requires Valid() && cond in meta
      modifies this`globalHist, this`condHist
      ensures Valid()
      ensures rscore.perCondition ==>
                condHist == old(condHist)[cond := PushShift(old(condHist[cond]), Bit(hit), rscore.window)]
                && globalHist == old(globalHist)
      ensures !rscore.perCondition ==>
                globalHist == PushShift(old(globalHist), Bit(hit), rscore.window) && condHist == old(condHist)
    {
      if rscore.perCondition {
        condHist := condHist[cond := PushShift(condHist[cond], Bit(hit), rscore.window)];
      } else {
        globalHist := PushShift(globalHist, Bit(hit), rscore.window);
      }
    }
  }
}
