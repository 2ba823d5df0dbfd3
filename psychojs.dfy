/**
 * mid_psychojs.js: the PsychoJS version. Its staircase, trial list,
 * jitter, R-Score rule and the bookkeeping of runTrial are those of
 * WebRules and WebSession; what is its own is the monetary feedback, whose
 * texts are made once per condition at set-up.
 */
module PsychoJs {
  import opened Wrappers
  import opened Numeric
  import opened Trial
  import opened Text

  /** monetaryGainText[label]: the condition's points on a hit when they are
      positive, "+0 Cent" otherwise. */
  function SetupGainText(pointsHit: int): (s: string)
    ensures s == CentText(Max(pointsHit, 0))
    ensures '-' !in s
  {
    var shown := if pointsHit > 0 then pointsHit else 0;
    var s := CentText(shown);
    assert s == "+" + Decimal(shown) + " Cent";
    assert '-' !in Decimal(shown);
    s
  }

  /** The set-up text always reads back as a non-negative amount: a loss is
      never shown as such. */
  lemma SetupGainTextReadsBack(pointsHit: int)
    ensures var s := SetupGainText(pointsHit); ParseInt(s[1..|s| - 5]) == Max(pointsHit, 0) >= 0
  {
    CentTextReadsBack(Max(pointsHit, 0));
  }

  /** The image and text shown in phase 6 of runTrial: those of the trial's
      condition after a hit, those of 'NEUTRAL' after a miss; without a
      'NEUTRAL' condition the lookup fails (None) and the trial throws. */
  function MonetaryFeedback(meta: map<string, Condition>, cond: string, hit: bool): (r: Option<(string, string)>)
    requires cond in meta
    ensures r.None? <==> !hit && "NEUTRAL" !in meta
    ensures r.Some? ==> r.value.0 == (if hit then cond else "NEUTRAL") && r.value.0 in meta
    ensures r.Some? ==> r.value.1 == SetupGainText(meta[r.value.0].pointsHit)
  {
    var key := if hit then cond else "NEUTRAL";
    if key in meta then Some((key, SetupGainText(meta[key].pointsHit))) else None
  }
}
