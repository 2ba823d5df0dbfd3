/**
 * mid_psychopy_pc_v2.py: the self-contained PsychoPy experiment with its
 * settings in a constant table. There is no R-Score rule and no duration
 * cap: the staircase's value is the shown duration, the reaction time is a
 * real number of milliseconds, and a feedback text reports the payoff.
 * Its staircase class is a verbatim copy of the one in utils.py and is
 * modelled by Utils.
 */
module PcV2 {
  import opened Wrappers
  import opened Numeric
  import opened Schedule
  import opened Shuffle
  import opened Trial
  import opened Text
  import Staircase
  import Utils

  const InitialTargetMs: int := 250
  const MinTargetMs: int := 120
  const MaxTargetMs: int := 400
  const StepMs: int := 10
  const PointsStart: int := 0
  const ShowCumulativePoints: bool := true
  const TrialsPerBlock: int := 36

  /** (label, valence, magnitude, points_on_hit, points_on_miss). */
  const Conditions: seq<Condition> := [
    Condition("WIN_LOW", 1, 1, 10, 0),
    Condition("WIN_HIGH", 1, 5, 50, 0),
    Condition("AVOID_LOW", -1, 1, 0, -10),
    Condition("AVOID_HIGH", -1, 5, 0, -50),
    Condition("NEUTRAL", 0, 0, 0, 0)
  ]

  /** make_trials: condition i's label repeated n // k times, once more for
      the first n % k conditions, then shuffled. A negative n makes every
      repetition empty. */
  method MakeTrials(conditions: seq<Condition>, n: int, draws: seq<int>) returns (trials: seq<string>)
    requires conditions != []
    requires ValidDraws(draws) && n <= |draws|
    ensures n < 0 ==> trials == []
    ensures n >= 0 ==> trials == Shuffled(Balanced(LabelsOf(conditions), n), draws)
    ensures n >= 0 ==> |trials| == n
    ensures forall x :: x in trials ==> x in LabelsOf(conditions)
    ensures n >= 0 && Distinct(LabelsOf(conditions)) ==>
              forall i :: 0 <= i < |conditions| ==> multiset(trials)[LabelsOf(conditions)[i]] == Share(n, |conditions|, i)
  {
    var labels := LabelsOf(conditions);
    var k := |labels|;
    var base := n / k;
    var rem := n % k;
    if n < 0 {
      FloorDivNegative(n, k);
    }
    trials := [];
    for i := 0 to k
      invariant n >= 0 ==> trials == Concat(labels, BalancedCounts(n, k), i)
      invariant n < 0 ==> trials == []
    {
      var count := base + (if i < rem then 1 else 0);
      assert n >= 0 ==> count == BalancedCounts(n, k)[i];
      if count > 0 {
        trials := trials + Repeat(labels[i], count);
      }
    }
    if n >= 0 {
      assert trials == Balanced(labels, n);
      ShuffledBalancedFacts(labels, n, draws);
      trials := Shuffled(trials, draws);
    }
  }

  /** A block of the constant configuration: 36 trials over the five
      conditions hold WIN_LOW 8 times and each other label 7 times. */
  lemma ConfiguredBlockCounts(draws: seq<int>)
    requires ValidDraws(draws) && TrialsPerBlock <= |draws|
    ensures var t := Shuffled(Balanced(LabelsOf(Conditions), TrialsPerBlock), draws);
            && |t| == 36
            && multiset(t)["WIN_LOW"] == 8
            && multiset(t)["WIN_HIGH"] == 7
            && multiset(t)["AVOID_LOW"] == 7
            && multiset(t)["AVOID_HIGH"] == 7
            && multiset(t)["NEUTRAL"] == 7
  {
    var labels := LabelsOf(Conditions);
    assert labels == ["WIN_LOW", "WIN_HIGH", "AVOID_LOW", "AVOID_HIGH", "NEUTRAL"];
    assert Distinct(labels);
    ShuffledBalancedFacts(labels, TrialsPerBlock, draws);
    var t := Shuffled(Balanced(labels, TrialsPerBlock), draws);
    assert Share(36, 5, 0) == 8 && Share(36, 5, 1) == 7 && Share(36, 5, 2) == 7;
    assert Share(36, 5, 3) == 7 && Share(36, 5, 4) == 7;
    assert multiset(t)[labels[0]] == 8 && multiset(t)[labels[1]] == 7 && multiset(t)[labels[2]] == 7;
    assert multiset(t)[labels[3]] == 7 && multiset(t)[labels[4]] == 7;
  }

  /** The keys of the constant condition table. */
  lemma ConfiguredKeys()
    ensures forall l :: l in MetaOf(Conditions) <==> l in ["WIN_LOW", "WIN_HIGH", "AVOID_LOW", "AVOID_HIGH", "NEUTRAL"]
  {
    var labels := LabelsOf(Conditions);
    assert labels == ["WIN_LOW", "WIN_HIGH", "AVOID_LOW", "AVOID_HIGH", "NEUTRAL"];
    DedupLabelsAreKeys(Conditions);
    assert forall l :: l in MetaOf(Conditions) <==> l in labels;
  }

  const GainHeader: string := "G E W I N N :  "
  const AvoidHeader: string := "V E R M E I D U N G :  "
  const NeutralText: string := "N E U T R A L"
  const TotalLine: string := "\nPunkte gesamt: "

  /** The heading by the sign of the valence: the payoff with its sign
      after the gain or the avoidance heading, or the neutral text alone. */
  function FeedbackHead(valence: int, delta: int): (head: string)
    ensures valence > 0 ==> head == GainHeader + SignedText(delta)
    ensures valence < 0 ==> head == AvoidHeader + SignedText(delta)
    ensures valence == 0 ==> head == NeutralText
    ensures '\n' !in head
  {
    var sign := SignedText(delta);
    assert '\n' !in sign by {
      NoNewlineInDecimal(if delta < 0 then -delta else delta);
      assert sign[1..] == Decimal(if delta < 0 then -delta else delta);
    }
    if valence > 0 then GainHeader + sign
    else if valence < 0 then AvoidHeader + sign
    else NeutralText
  }

  /** The feedback text of run_trial: the heading, followed by a line with
      the running total only when show_cumulative_points is set. */
  function FeedbackText(valence: int, delta: int, total: int, showTotal: bool): (fb: string)
    ensures FeedbackHead(valence, delta) <= fb
    ensures '\n' in fb <==> showTotal
    ensures showTotal ==> fb[|FeedbackHead(valence, delta)|..] == TotalLine + IntText(total)
    ensures !showTotal ==> fb == FeedbackHead(valence, delta)
  {
    var head := FeedbackHead(valence, delta);
    if showTotal then
      var fb := head + (TotalLine + IntText(total));
      assert fb[..|head|] == head && fb[|head|..] == TotalLine + IntText(total);
      assert fb[|head|] == TotalLine[0] == '\n';
      fb
    else head
  }

  /** The payoff and the total can be read back from the text. */
  lemma FeedbackReadsBack(valence: int, delta: int, total: int)
    requires valence != 0
    ensures var fb := FeedbackText(valence, delta, total, true);
            var h := if valence > 0 then |GainHeader| else |AvoidHeader|;
            var t := |FeedbackHead(valence, delta)| + |TotalLine|;
            && fb[h..|FeedbackHead(valence, delta)|] == SignedText(delta)
            && ParseInt(fb[h..|FeedbackHead(valence, delta)|]) == delta
            && fb[t..] == IntText(total)
            && ParseInt(fb[t..]) == total
  {
    var fb := FeedbackText(valence, delta, total, true);
    var head := FeedbackHead(valence, delta);
    var h := if valence > 0 then |GainHeader| else |AvoidHeader|;
    assert fb[..|head|] == head;
    assert head[h..] == SignedText(delta);
    assert fb[h..|head|] == head[h..];
    assert fb[|head|..] == TotalLine + IntText(total);
    assert fb[|head| + |TotalLine|..] == fb[|head|..][|TotalLine|..];
    IntTextRoundTrip(delta);
    IntTextRoundTrip(total);
  }

  /** cond_stair: one staircase per condition label, all with the same
      settings; a repeated label gets a new staircase in place of the old
      one. */
  method BuildStairs(conditions: seq<Condition>, initialMs: int, minMs: int, maxMs: int, stepMs: int)
    returns (stairs: map<string, Utils.StaircaseAdaptive>)
    ensures stairs.Keys == MetaOf(conditions).Keys
    ensures forall a, b :: a in stairs && b in stairs && a != b ==> stairs[a] != stairs[b]
    ensures forall l :: l in stairs ==> fresh(stairs[l])
    ensures forall l :: l in stairs ==>
              && stairs[l].Snapshot() == Staircase.State(initialMs, 0)
              && stairs[l].Params() == Staircase.Params(minMs, maxMs, stepMs)
  {
    stairs := map[];
    for i := 0 to |conditions|
      invariant stairs.Keys == MetaOf(conditions[..i]).Keys
      invariant forall a, b :: a in stairs && b in stairs && a != b ==> stairs[a] != stairs[b]
      invariant forall l :: l in stairs ==> fresh(stairs[l])
      invariant forall l :: l in stairs ==>
                  && stairs[l].Snapshot() == Staircase.State(initialMs, 0)
                  && stairs[l].Params() == Staircase.Params(minMs, maxMs, stepMs)
    {
      var stair := new Utils.StaircaseAdaptive(initialMs, minMs, maxMs, stepMs);
      stairs := stairs[conditions[i].name := stair];
      assert conditions[..i + 1][..i] == conditions[..i];
    }
    assert conditions[..|conditions|] == conditions;
  }

  /** The module-level state run_trial works on. */
  class Session {
    const meta: map<string, Condition>
    const stairs: map<string, Utils.StaircaseAdaptive>
    const showCumulativePoints: bool
    var pointsTotal: int

    ghost predicate Valid()
      reads this
    {
      && stairs.Keys == meta.Keys
      && (forall a, b :: a in stairs && b in stairs && a != b ==> stairs[a] != stairs[b])
    }

    constructor (conditions: seq<Condition>, initialMs: int, minMs: int, maxMs: int, stepMs: int,
                 pointsStart: int, showCumulativePoints: bool)
      ensures Valid()
      ensures meta == MetaOf(conditions) && this.showCumulativePoints == showCumulativePoints
      ensures forall l :: l in stairs ==>
                && fresh(stairs[l])
                && stairs[l].Snapshot() == Staircase.State(initialMs, 0)
                && stairs[l].Params() == Staircase.Params(minMs, maxMs, stepMs)
      ensures pointsTotal == pointsStart
    {
      var built := BuildStairs(conditions, initialMs, minMs, maxMs, stepMs);
      meta := MetaOf(conditions);
      stairs := built;
      this.showCumulativePoints := showCumulativePoints;
      pointsTotal := pointsStart;
    }

    /** run_trial without its display and timing: the staircase's value is
        read once and shown unchanged, a response at or before it is a hit,
        the payoff is added, the staircase is updated exactly once, and the
        feedback text is composed. rt is the reaction time in milliseconds,
        None without a response. */
    method RunTrial(cond: string, rt: Option<real>) returns (o: Record, feedback: string)
      requires Valid() && cond in meta
      modifies this, stairs[cond]
      ensures Valid()
      ensures o.condition == cond
      ensures o.targetMsPre == o.targetMs == old(stairs[cond].value)
      ensures o.hit <==> rt.Some? && rt.value <= o.targetMs as real
      ensures o.deltaPoints == if o.hit then meta[cond].pointsHit else meta[cond].pointsMiss
      ensures pointsTotal == old(pointsTotal) + o.deltaPoints && o.pointsTotal == pointsTotal
      ensures stairs[cond].Snapshot() == Staircase.Next(old(stairs[cond].Snapshot()), o.hit, stairs[cond].Params())
      ensures forall l :: l in stairs && l != cond ==> stairs[l].Snapshot() == old(stairs[l].Snapshot())
      ensures feedback == FeedbackText(meta[cond].valence, o.deltaPoints, pointsTotal, showCumulativePoints)
    {
      var condition := meta[cond];
      var stair := stairs[cond];
      var target := stair.GetMs();
      var hit := rt.Some? && rt.value <= target as real;
      var delta := if hit then condition.pointsHit else condition.pointsMiss;
      pointsTotal := pointsTotal + delta;
      stair.Update(hit);
      feedback := FeedbackText(condition.valence, delta, pointsTotal, showCumulativePoints);
      o := Record(cond, target, target, hit, delta, pointsTotal);
    }
  }

  /** The module-level set-up of the script with its constant
      configuration: points_total starts at points_start (0), the running
      total is shown, and every condition's staircase starts at 250 ms
      within [120, 400] ms with 10 ms steps. */
  method ConfiguredSession() returns (s: Session)
    ensures fresh(s) && s.Valid()
    ensures forall l :: l in s.meta <==> l in ["WIN_LOW", "WIN_HIGH", "AVOID_LOW", "AVOID_HIGH", "NEUTRAL"]
    ensures s.pointsTotal == 0 && s.showCumulativePoints
    ensures forall l :: l in s.stairs ==>
              && s.stairs[l].Snapshot() == Staircase.State(250, 0)
              && s.stairs[l].Params() == Staircase.Params(120, 400, 10)
  {
    s := new Session(Conditions, InitialTargetMs, MinTargetMs, MaxTargetMs, StepMs,
                     PointsStart, ShowCumulativePoints);
    ConfiguredKeys();
  }

  /** The staircases of the constant configuration start inside their range
      and, since the step is positive, stay there whatever the outcomes. */
  lemma ConfiguredStaircaseStaysInRange(outcomes: seq<bool>)
    ensures var p := Staircase.Params(MinTargetMs, MaxTargetMs, StepMs);
            Staircase.InRange(Staircase.Run(Staircase.State(InitialTargetMs, 0), outcomes, p), p)
  {
    Staircase.RunStaysInRange(Staircase.State(InitialTargetMs, 0), outcomes,
                              Staircase.Params(MinTargetMs, MaxTargetMs, StepMs));
  }
}
