/**
 * electron-app/mid_web_electron.js: the Electron version. Its staircase,
 * trial list, jitter, R-Score rule and the bookkeeping of runTrial are
 * those of WebRules and WebSession; what is its own is the monetary
 * feedback, chosen by a label and a gain computed per trial.
 */
module Electron {
  import opened Wrappers
  import opened Numeric
  import opened Trial
  import opened Text
  import PsychoJs

  /** The condition whose image is shown: the trial's own after a hit,
      'NEUTRAL' after a miss. */
  function MonetaryLabel(cond: string, hit: bool): (l: string)
    ensures l == cond || l == "NEUTRAL"
    ensures hit ==> l == cond
    ensures !hit ==> l == "NEUTRAL"
  {
    if hit then cond else "NEUTRAL"
  }

  /** The amount shown: the condition's points on a hit, nothing on a miss. */
  function ShownGain(hit: bool, pointsHit: int): (g: int)
    ensures hit ==> g == pointsHit
    ensures !hit ==> g == 0
  {
    if hit then pointsHit else 0
  }

  /** Phase 6 of runTrial: the magnitude that selects the image (that of
      the label's condition) and the text `+${points} Cent`; when the label
      is not a condition the lookup of its magnitude throws (None). */
  function MonetaryFeedback(meta: map<string, Condition>, cond: string, hit: bool): (r: Option<(int, string)>)
    requires cond in meta
    ensures r.None? <==> !hit && "NEUTRAL" !in meta
    ensures r.Some? ==> r.value.0 == meta[MonetaryLabel(cond, hit)].magnitude
    ensures r.Some? ==> r.value.1 == CentText(ShownGain(hit, meta[cond].pointsHit))
  {
    var key := MonetaryLabel(cond, hit);
    if key in meta then Some((meta[key].magnitude, CentText(ShownGain(hit, meta[cond].pointsHit)))) else None
  }

  /** The shown text states exactly the gain: the points on a hit, zero on
      a miss, negative points included. */
  lemma MonetaryTextReadsBack(meta: map<string, Condition>, cond: string, hit: bool)
    requires cond in meta && MonetaryFeedback(meta, cond, hit).Some?
    ensures var s := MonetaryFeedback(meta, cond, hit).value.1;
            ParseInt(s[1..|s| - 5]) == (if hit then meta[cond].pointsHit else 0)
  {
    CentTextReadsBack(ShownGain(hit, meta[cond].pointsHit));
  }

  /** The two JavaScript versions show the same text exactly when no
      condition pays a negative amount on a hit and 'NEUTRAL' pays nothing
      on a hit: PsychoJS shows "+0 Cent" for a negative payoff and
      'NEUTRAL''s own text after a miss. */
  lemma TextsAgreeWithPsychoJs(meta: map<string, Condition>, cond: string, hit: bool)
    requires cond in meta && (hit || "NEUTRAL" in meta)
    ensures PsychoJs.MonetaryFeedback(meta, cond, hit).Some? && MonetaryFeedback(meta, cond, hit).Some?
    ensures PsychoJs.MonetaryFeedback(meta, cond, hit).value.1 == MonetaryFeedback(meta, cond, hit).value.1
            <==> (if hit then meta[cond].pointsHit >= 0 else meta["NEUTRAL"].pointsHit <= 0)
  {
    var p := PsychoJs.MonetaryFeedback(meta, cond, hit).value.1;
    var e := MonetaryFeedback(meta, cond, hit).value.1;
    var shownP := if hit then Max(meta[cond].pointsHit, 0) else Max(meta["NEUTRAL"].pointsHit, 0);
    var shownE := ShownGain(hit, meta[cond].pointsHit);
    assert p == CentText(shownP);
    assert e == CentText(shownE);
    CentTextReadsBack(shownP);
    CentTextReadsBack(shownE);
  }
}
