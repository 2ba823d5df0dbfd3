# MID: the adaptive core of a Monetary Incentive Delay experiment

The MID repository runs a Monetary Incentive Delay task. On each trial a
cue announces what is at stake (a possible gain, a loss to avoid, or nothing).
A target is then shown briefly, and the participant must respond before it
disappears. The response earns or loses points.

The target duration adapts to the participant in two ways:

- **Staircase.** Each condition has a 1-up/2-down staircase (`StaircaseAdaptive`).
  One miss lengthens the target by a step, up to a maximum. Two consecutive
  hits shorten it by a step, down to a minimum.
- **R-Score rule.** This rule shortens the target further when the recent hit
  rate is high. It reads a bounded history of hits and misses, kept for all
  trials or per condition.

Before each block, a balanced list of condition labels is built and shuffled.

The experiment exists in five variants, and this model keeps each variant's
own behaviour:

- `utils.py`: the stand-alone staircase class.
- `mid_psychopy_pc_yaml.py`: PsychoPy, configured by YAML. It has its own
  defaulting loader, the R-Score rule with `int()` truncation and a floor at
  `min_ms`, `rt <= target` as the hit test, and `deque(maxlen=window)`
  histories.
- `mid_psychopy_pc_v2.py`: PsychoPy with a constant settings table. It has no
  R-Score rule and no cap, and it builds a feedback text.
- `mid_psychojs.js` and `electron-app/mid_web_electron.js`: the browser and
  Electron versions. Their R-Score rule waits for a full window, compares
  with `>=`, rounds with `Math.round` and has no floor. The hit test is
  `rt < target`, the histories are push-then-shift arrays, and the shuffle is
  an in-place Fisher–Yates loop.
- `config_loader.py`: the validating loader. It checks required sections,
  then required fields, then the shape of the conditions. It fills
  presentation defaults without overwriting.

Modules:

- **Staircase:** the pure 1-up/2-down rule that every staircase class is
  proved against.
- **Utils:** the Python class. Its three copies in the Python files are
  identical.
- **WebRules:** the JavaScript class, `makeTrials` and the JavaScript R-Score
  rule. The two JavaScript files share them word for word.
- **WebSession:** the JavaScript per-page state and the bookkeeping of
  `runTrial`, which is also identical in both files.
- **PsychoJs** and **Electron:** the monetary feedback of each JavaScript
  file, which is where the two files differ.
- **PcYaml** and **PcYamlConfig:** the YAML PsychoPy script.
- **PcV2:** the PsychoPy script with the constant settings table.
- **ConfigLoader:** `config_loader.py`.
- **Shared helpers:**
  - Schedule, Shuffle and RScore: balanced lists, shuffling with explicit
    draws, and bounded histories.
  - Trial: conditions and trial records.
  - Numeric: `int()` and `Math.round` on rationals.
  - Text: decimal rendering.
  - PyValue: parsed YAML values, truthiness, `in` and `setdefault`.

Some behaviour the code shows and the model keeps:

- **JavaScript crash after a miss without a `NEUTRAL` condition.** In both
  JavaScript files, a miss in a configuration without a `NEUTRAL` condition
  throws while the monetary feedback is shown. By then the staircase and the
  points have been updated, but the R-Score history has not.
  `WebSession.Session.RunTrial` reports this as `completed == false` with the
  histories untouched.
- **JavaScript crash without `per_condition_max_ms`.** Neither JavaScript
  file gives `config.staircase.per_condition_max_ms` a default. When the key
  is absent, every trial throws at the lookup of the condition's maximum,
  before the hit is decided and before anything changes.
  `WebSession.Session.RunTrial` reports this as `completed == false` with the
  whole state unchanged.
- **A JavaScript throw ends the experiment.** Either throw leaves
  `runExperiment`, so no further trial runs. `WebSession.Session` sets
  `ended`, and `RunTrial` can only be called while `ended` is false.
- **Python practice list length.** The practice list of the YAML script holds
  `k * max(1, n // k)` trials, which can differ from `practice_trials`.
- **R-Score at exactly the threshold.** A Python history whose rate equals the
  threshold does not scale. A JavaScript window at exactly the threshold does.
- **JavaScript can go below the minimum.** With no floor, JavaScript scaling
  can take the target below `min_ms`.

## Model

| member | source | states |
|---|---|---|
| Staircase.Next | utils.py:31-40 | After any update the hit counter is 0 or 1. A miss sets the value to min(max_ms, value + step) and clears the counter, even from 1. A first hit keeps the value and sets the counter to 1. A second hit sets the value to max(min_ms, value - step) and the counter to 0. A value change always clears the counter. A value in [min_ms, max_ms] stays there when step >= 0. |
| Staircase.RunStaysInRange | utils.py:31-40 | From a value in [min_ms, max_ms] with a non-negative step, any sequence of outcomes keeps the value in range and leaves the counter in {0, 1}. |
| Staircase.MissesRaise | utils.py:38-40 | k misses in a row raise the value by k steps, capped at max_ms (1-up). |
| Staircase.HitPairsLower | utils.py:33-37 | 2k hits in a row from a cleared counter lower the value by k steps, floored at min_ms (2-down). |
| Utils.StaircaseAdaptive.constructor | utils.py:24-29 | value is initial_ms, the hit counter is 0, and the bounds and step are stored. The same code is at mid_psychopy_pc_yaml.py:37-44 and mid_psychopy_pc_v2.py:91-97. |
| Utils.StaircaseAdaptive.Update | utils.py:31-40 | The new value and counter are exactly Staircase.Next of the old ones, so the bounds invariant and the 1-up/2-down rule hold. The same code is at mid_psychopy_pc_yaml.py:46-54 and mid_psychopy_pc_v2.py:99-107. |
| Utils.StaircaseAdaptive.GetMs | utils.py:42-44 | Returns the current value and changes nothing. The same code is at mid_psychopy_pc_yaml.py:56-57 and mid_psychopy_pc_v2.py:109-110. |
| WebRules.StaircaseAdaptive.constructor | mid_psychojs.js:542-549 | currentMs is initialMs, both counters are 0, and the bounds and step are stored. The same code is at electron-app/mid_web_electron.js:412-419. |
| WebRules.StaircaseAdaptive.Update | mid_psychojs.js:555-571 | The new value and hit counter are exactly Staircase.Next of the old ones, and consecutiveMisses is 0 after every update. The same code is at electron-app/mid_web_electron.js:425-440. |
| WebRules.StaircaseAdaptive.GetCurrentDuration | mid_psychojs.js:551-553 | Returns currentMs and changes nothing. The same code is at electron-app/mid_web_electron.js:421-423. |
| Numeric.PyTrunc | mid_psychopy_pc_yaml.py:396 | int() of a quotient truncates toward zero: the result times the divisor lies within one divisor of the numerator, on the side of zero. |
| Numeric.JsRound | mid_psychojs.js:271 | Math.round of a quotient is the nearest integer, and a half rounds up. |
| Numeric.PyTruncScaleWithin | mid_psychopy_pc_yaml.py:396 | Truncating a non-negative duration times a factor in [0, 1] gives a value between 0 and the duration. |
| Numeric.JsRoundScaleWithin | mid_psychojs.js:271 | Rounding a non-negative duration times a factor in [0, 1] gives a value between 0 and the duration. |
| Schedule.Balanced | mid_psychopy_pc_yaml.py:289-296 | The pre-shuffle list built from condition counts n // k and n // k + 1 has exactly n entries. |
| Schedule.BalancedSum | mid_psychopy_pc_yaml.py:291-296 | The first j counts add up to j * (n // k) + min(j, n % k). |
| Schedule.BalancedFacts | mid_psychopy_pc_yaml.py:294-296 | The balanced list holds only configured labels. With distinct labels, label i occurs n // k times, plus one if i < n % k. |
| Schedule.Each | mid_psychopy_pc_yaml.py:477-479 | Repeating each of k labels `per` times gives k * per entries. |
| Schedule.EachFacts | mid_psychopy_pc_yaml.py:477-479 | That list holds only configured labels and, with distinct labels, each exactly `per` times. |
| Shuffle.Swap | mid_psychojs.js:470 | The destructuring swap exchanges positions i and j, keeps every other position, and keeps the multiset. |
| Shuffle.FisherYatesPermutes | mid_psychojs.js:468-471 | The swaps for positions i down to 1, with draws in [0, i], keep the length and the multiset. |
| Shuffle.FisherYatesStep | mid_psychojs.js:470 | One swap at position i followed by the swaps below i is the same as all swaps from i down. |
| Shuffle.Shuffled | mid_psychopy_pc_yaml.py:297 | random.shuffle, driven by draws in [0, i] for position i, returns a permutation: same length, same multiset. |
| Shuffle.ShuffledBalancedFacts | mid_psychopy_pc_yaml.py:289-297 | A shuffled balanced block has n entries and only configured labels. With distinct labels, label i occurs n // k times, plus one if i < n % k. |
| RScore.DequeAppend | mid_psychopy_pc_yaml.py:456-459 | Appending to deque(maxlen=window) keeps at most window entries. The new outcome is last. Below the limit, nothing drops out. |
| RScore.DequeAppendKeepsTail | mid_psychopy_pc_yaml.py:259-262 | A deque holding the newest window outcomes still holds the newest window outcomes after an append. |
| RScore.PushShift | mid_psychojs.js:348-358 | push-then-shift keeps the length at or below window, and the newest outcome is last. |
| RScore.PushShiftKeepsTail | mid_psychojs.js:348-358 | An array holding the newest window outcomes still holds the newest window outcomes after push-then-shift. |
| RScore.PushShiftIsDequeAppend | electron-app/mid_web_electron.js:239-250 | On a history of at most window entries, the JavaScript push/shift equals the Python deque append. |
| RScore.LastN | mid_psychopy_pc_yaml.py:260 | The newest w entries, or all entries when there are fewer: length min(len, w), a suffix. |
| Trial.LabelsOf | mid_psychopy_pc_yaml.py:501 | [c[0] for c in conditions]: the labels in list order. |
| Trial.MetaOf | mid_psychopy_pc_yaml.py:194-198 | The keys of the table are exactly the configured labels. Each key maps to the last condition with that label. The same table is built at mid_psychopy_pc_v2.py:180, mid_psychojs.js:101-109 (by forEach, a later entry replacing an earlier one) and electron-app/mid_web_electron.js:84-91. |
| Trial.Dedup | mid_psychopy_pc_yaml.py:289 | The key order of that table: each label once, every label present, and the labels in the order of their first occurrence. |
| Trial.DedupLabelsAreKeys | mid_psychopy_pc_yaml.py:289 | The labels in that order are exactly the keys of the condition table. |
| PcYaml.ScaledTarget | mid_psychopy_pc_yaml.py:387-412 | Disabled, or with an empty selected history, the target is target_ms_pre. Any change requires a non-empty history with a rate strictly above the threshold, and the result is at least min_ms. |
| PcYaml.AboveThresholdScales | mid_psychopy_pc_yaml.py:392-396 | Enabled, with a non-empty history and a rate strictly above the threshold, the target is max(min_ms, int(target_ms_pre * scale)). |
| PcYaml.AtThresholdKeeps | mid_psychopy_pc_yaml.py:395 | A rate exactly at the threshold leaves the target unchanged. |
| PcYaml.ScaledTargetWithin | mid_psychopy_pc_yaml.py:396 | With a scale in [0, 1] and min_ms <= pre, the result lies in [min_ms, pre]. |
| PcYaml.FinalTarget | mid_psychopy_pc_yaml.py:414-417 | The shown duration is at most the cap (per-condition max, else max_ms), and is either the cap or the R-Score result. |
| PcYaml.FinalTargetWithin | mid_psychopy_pc_yaml.py:385-417 | With a scale in [0, 1] and min_ms <= pre, the shown duration lies between min(min_ms, cap) and pre. |
| PcYaml.TableStairs | mid_psychopy_pc_yaml.py:247-256 | The staircase map has exactly the keys of the condition table. |
| PcYaml.BuildStairs | mid_psychopy_pc_yaml.py:247-256 | One fresh, distinct staircase per label. Each starts at initial_ms with counter 0 and is bounded by min_ms and its own cap. |
| RScore.EmptyHistories | mid_psychopy_pc_yaml.py:259-260 | An empty history for exactly the configured labels. The same per-condition set-up is at mid_psychojs.js:184-190. |
| PcYaml.Session.constructor | mid_psychopy_pc_yaml.py:193-262 | The table, the staircases, points_total = points.start, and empty histories in the configured scope. |
| PcYaml.Session.RunTrial | mid_psychopy_pc_yaml.py:358-459 | target_ms_pre is the staircase's value before the trial. target_ms is FinalTarget of it, read from the history before the append. hit iff rt is present and rt <= target_ms. The total grows by exactly points_hit or points_miss. Only this condition's staircase moves, by Staircase.Next. The outcome is appended to the history the scope selects. Histories stay within the window, and staircases stay in range. |
| PcYaml.BalancedTrials | mid_psychopy_pc_yaml.py:499-507 | The extend loop builds Balanced(labels, n), and the result is its shuffle: n entries, only configured labels, label i exactly n // k (+1 if i < n % k) times. A negative n gives []. |
| PcYaml.MakeTrials | mid_psychopy_pc_yaml.py:288-298 | Over the table's keys: exactly n labels, each a configured condition, with balanced counts. |
| PcYaml.BlockTrials | mid_psychopy_pc_yaml.py:499-507 | Over the raw condition list: exactly n labels, each a configured condition. |
| PcYaml.PracticePer | mid_psychopy_pc_yaml.py:476 | max(1, n // k): 1 when n < k, otherwise the largest per with per * k <= n. It is at least 1, and k times it covers min(n, k). |
| PcYaml.PracticeTrials | mid_psychopy_pc_yaml.py:471-480 | Nothing unless practice_trials > 0. Otherwise a permutation of every label repeated max(1, n // k) times: k * max(1, n // k) entries, not necessarily n. |
| PyValue.DefaultSection | mid_psychopy_pc_yaml.py:68-77 | setdefault of a section and its keys. It fails exactly when the section is present but not a dict. Otherwise present keys keep their values, missing defaults are added, nothing else is added, and the rest of cfg is unchanged. |
| PyValue.DefaultSections | mid_psychopy_pc_yaml.py:67-117 | The sections are defaulted in order. The first non-dict section stops the load, reported by name. Otherwise every section is filled as above: its own entries kept, the missing defaults added, and no other key. The other top-level keys are untouched. |
| PcYamlConfig.SectionDefaultsWellFormed | mid_psychopy_pc_yaml.py:67-117 | Each section is defaulted once, with distinct keys, and none of them is `conditions`. |
| PcYamlConfig.ConditionsAfter | mid_psychopy_pc_yaml.py:119-127 | The file's condition list when present and non-empty, the five standard conditions otherwise. |
| PcYamlConfig.LoadWith | mid_psychopy_pc_yaml.py:63-128 | Loading succeeds iff every defaulted section is absent or a dict, and otherwise names the first one that is not. On success every section is filled without overwriting, conditions is ConditionsAfter, and nothing else changes. |
| PcYamlConfig.LoadConfig | mid_psychopy_pc_yaml.py:63-128 | With the script's own default table and standard conditions, all of LoadWith's contract. Loading succeeds iff every defaulted section is absent or a dict, and otherwise names the first one that is not. On success every section is filled without overwriting and gains no key beyond its defaults, conditions is ConditionsAfter, and no other key of the file changes. |
| PcV2.MakeTrials | mid_psychopy_pc_v2.py:77-88 | Exactly n_trials labels. Condition i gets base, or base + 1 for the first rem, and every entry is some condition's cond[0]. A negative count gives []. |
| PcV2.FeedbackHead | mid_psychopy_pc_v2.py:282-287 | Gain heading plus the signed payoff for valence > 0, avoidance heading plus it for < 0, the neutral text for 0, and no line break. |
| PcV2.FeedbackText | mid_psychopy_pc_v2.py:281-289 | The heading always comes first. The text has a line break iff show_cumulative_points. That line is "Punkte gesamt: " and the total. |
| PcV2.FeedbackReadsBack | mid_psychopy_pc_v2.py:283-289 | The signed payoff and the total read back unchanged from the text. |
| PcV2.BuildStairs | mid_psychopy_pc_v2.py:181 | One fresh, distinct staircase per label, all with the constant settings. |
| PcV2.Session.constructor | mid_psychopy_pc_v2.py:177-181 | The table, the staircases, and points_total = points_start. |
| PcV2.Session.RunTrial | mid_psychopy_pc_v2.py:226-289 | target_ms is read from the staircase before the trial and used unchanged. hit iff rt is present and rt <= target_ms. The total grows by points_hit or points_miss. The staircase is updated exactly once, by Staircase.Next, and the others are untouched. The feedback is FeedbackText. |
| PcV2.ConfiguredStaircaseStaysInRange | mid_psychopy_pc_v2.py:47-50 | With the constant settings (250 within [120, 400], step 10), every staircase stays in range whatever the outcomes. |
| PcV2.ConfiguredBlockCounts | mid_psychopy_pc_v2.py:37-44 | A block of the configured 36 trials (built at line 326) holds WIN_LOW 8 times and each other label 7 times. |
| PcV2.ConfiguredKeys | mid_psychopy_pc_v2.py:180 | The condition table's keys are exactly the five configured labels. |
| PcV2.ConfiguredSession | mid_psychopy_pc_v2.py:177-181 | With the constant configuration: the five labels as keys, points_total = 0, the total shown, and every staircase at 250 ms in [120, 400] with step 10. |
| Text.Decimal | mid_psychopy_pc_v2.py:289 | The digits of a number: non-empty, only digits, no leading zero. |
| Text.DecimalRoundTrip | mid_psychopy_pc_v2.py:289 | Reading the digits back gives the number. |
| Text.IntText | mid_psychopy_pc_v2.py:289 | format 'd': a leading '-' iff the number is negative. |
| Text.SignedText | mid_psychopy_pc_v2.py:283 | format '+d': a sign character ('-' for negatives, '+' otherwise) followed by digits. |
| Text.IntTextRoundTrip | mid_psychopy_pc_v2.py:283-289 | Both renderings read back as the same number. |
| Text.CentText | electron-app/mid_web_electron.js:233 | `+${points} Cent`: a '+', the number, and " Cent". |
| Text.CentTextReadsBack | electron-app/mid_web_electron.js:233 | The number between '+' and " Cent" reads back as the amount. |
| WebRules.Recent | mid_psychojs.js:267-268 | slice(-window) on a full history: the newest window entries, or the whole array for window 0. |
| WebRules.ScaledTarget | mid_psychojs.js:261-275 | Disabled, or with fewer than window entries, the target is unchanged. Any change requires a full window whose rate is at or above the threshold. |
| WebRules.AtThresholdScales | mid_psychojs.js:270-271 | A full window exactly at the threshold does scale, with Math.round. |
| WebRules.ScaledTargetWithin | mid_psychojs.js:271 | With a scale in [0, 1], the result lies in [0, pre]. |
| WebRules.ScalingCanUndercutMinimum | electron-app/mid_web_electron.js:176-186 | From 120 ms with a 100% rate and scale 0.9, the result is 108 ms. There is no floor at min_ms. |
| WebRules.FinalTarget | mid_psychojs.js:278-281 | The shown duration is at most the cap (per-condition max, else max_ms), and is either the cap or the R-Score result. The same code is at electron-app/mid_web_electron.js:188-191. |
| WebRules.UniformJitter | mid_psychojs.js:508-511 | With the random draw in [0, max - min], the jitter lies in [min, max] and is min plus the draw. The same code is at electron-app/mid_web_electron.js:365-368. |
| WebRules.JitterCoversRange | mid_psychojs.js:508-511 | Every whole number in [min, max] is reached by some draw. |
| WebRules.JsRem | mid_psychojs.js:457 | JavaScript `%` agrees with the mathematical remainder for n >= 0, and lies in (-k, 0] for n < 0. |
| WebRules.PushBalanced | mid_psychojs.js:454-465 | The push loops give Balanced(labels, n) for n >= 0, and nothing for negative n. |
| Shuffle.SwapLoop | mid_psychojs.js:467-471 | The in-place loop leaves the array equal to Shuffled of its old contents: a permutation. |
| Shuffle.SwapAt | mid_psychojs.js:470 | The destructuring swap on the array exchanges positions i and j and leaves every other position as it was. |
| WebRules.MakeTrials | mid_psychojs.js:453-474 | Exactly n labels, a permutation of the balanced list. Label i appears n // k times, plus one if i < n % k, and only keys occur. No conditions or a negative n gives []. The same code is at electron-app/mid_web_electron.js:342-363. |
| WebSession.TableStairs | mid_psychojs.js:175-182 | The staircase map has exactly the keys of the condition table. |
| WebSession.BuildStairs | mid_psychojs.js:175-182 | One fresh, distinct staircase per key, all with the global min_ms, max_ms and step_ms. |
| WebSession.Session.constructor | mid_psychojs.js:100-195 | The table, the staircases, and empty histories in the configured scope. pointsTotal is points.start, or 0 when it is absent or null (`|| 0`). The experiment has not ended. The same code is at electron-app/mid_web_electron.js:82-114. |
| WebSession.Session.RunTrial | mid_psychojs.js:249-358 | Callable only before the experiment has ended. targetMsPre is the staircase's value before the trial. Without per_condition_max_ms the lookup throws: the trial does not complete and nothing changes. Otherwise: targetMs is WebRules.FinalTarget of targetMsPre, read from the history before the push. hit iff rt is present and rt < targetMs (strict). The total changes by pointsHit or pointsMiss. Only this staircase moves, by Staircase.Next, with consecutiveMisses 0. The trial completes iff it was a hit or a NEUTRAL condition exists. A completed trial push/shifts the outcome onto the selected history, and an aborted one leaves the histories alone. The experiment has ended iff the trial did not complete. Staircases stay in range, and histories within the window. The same bookkeeping is at electron-app/mid_web_electron.js:160-250, where the lookup of condMeta['NEUTRAL'] is what throws. |
| WebSession.Session.ScoreTrial | mid_psychojs.js:261-316 | After the cap is known: targetMs is WebRules.FinalTarget of the staircase's value, hit iff rt < targetMs, the staircase follows Staircase.Next, the total changes by the payoff, and no other staircase or history changes. |
| WebSession.Session.PushOutcome | mid_psychojs.js:348-358 | The outcome bit is pushed onto the history the scope selects, which is shifted once it exceeds the window. The other history is unchanged. |
| PsychoJs.SetupGainText | mid_psychojs.js:160-162 | The set-up text of a condition is `+N Cent` with N = max(pointsHit, 0), and it never holds a minus sign. |
| PsychoJs.SetupGainTextReadsBack | mid_psychojs.js:160-162 | The amount in that text reads back as max(pointsHit, 0). |
| PsychoJs.MonetaryFeedback | mid_psychojs.js:324-333 | After a hit, the condition's own image and text. After a miss, NEUTRAL's. No result (the throw) exactly on a miss without NEUTRAL. |
| Electron.MonetaryLabel | electron-app/mid_web_electron.js:230 | condLabel on a hit, 'NEUTRAL' on a miss. |
| Electron.ShownGain | electron-app/mid_web_electron.js:232 | pointsHit on a hit, 0 on a miss. |
| Electron.MonetaryFeedback | electron-app/mid_web_electron.js:229-234 | The image is chosen by the magnitude of MonetaryLabel's condition, and the text is `+${ShownGain} Cent`. No result (the throw) exactly on a miss without NEUTRAL. |
| Electron.MonetaryTextReadsBack | electron-app/mid_web_electron.js:232-234 | The text states the gain exactly, negative points included. |
| Electron.TextsAgreeWithPsychoJs | electron-app/mid_web_electron.js:229-234 | The two JavaScript versions show the same text iff pointsHit >= 0 on a hit, or NEUTRAL's pointsHit <= 0 on a miss. |
| ConfigLoader.MissingAmong | config_loader.py:67-70 | The absent or empty required sections, in order: a name is listed iff it is required and missing. |
| ConfigLoader.CollectMissing | config_loader.py:59-70 | The loop collects exactly MissingAmong of the required sections. |
| ConfigLoader.MissingFieldsOf | config_loader.py:105 | The list comprehension: a field is listed iff it is required and not `in` the section. |
| ConfigLoader.ValidateFields | config_loader.py:102-111 | Passes iff the section supports `in` and holds every required field. Otherwise it fails with all the missing fields, or with a TypeError when `in` is undefined on the section. |
| ConfigLoader.ValidateTimings | config_loader.py:102-111 | Fails exactly when one of the five timing fields is absent. |
| ConfigLoader.ValidateStaircase | config_loader.py:114-123 | Fails exactly when initial_ms, min_ms, max_ms or step_ms is absent. |
| ConfigLoader.ValidateRScore | config_loader.py:126-135 | Fails exactly when one of enabled, window, threshold, scale and scope is absent. |
| ConfigLoader.ValidateTask | config_loader.py:138-147 | Fails exactly when one of its five fields is absent. |
| ConfigLoader.CheckConditionsFrom | config_loader.py:156-164 | Passes iff every entry from i on is a 5-element list with a string label and numeric valence and magnitude. Otherwise it reports the first bad entry, a shape error taking precedence over a type error. |
| ConfigLoader.ValidateConditions | config_loader.py:150-164 | Fails on a non-list or an empty list. Otherwise it passes iff every entry is well formed, and it reports the first bad one. The points fields are not checked. |
| ConfigLoader.ValidateAll | config_loader.py:80-85 | Passes iff all five validations pass, and the timing failure is reported first. |
| ConfigLoader.RequiredUnchanged | config_loader.py:43-56 | Writing text and win leaves the required sections, and every check on them, as the file had them. |
| ConfigLoader.CheckedConfig | config_loader.py:38-85 | Window defaults first. Then all missing sections are reported together. Then the first field-level failure. Success iff none of these fails. The filled win section holds only its own keys and the window defaults. |
| ConfigLoader.DefaultPresentation | config_loader.py:87-97 | Visual, then points defaults, each only for missing keys and without overwriting. Neither section gains a key beyond its defaults. |
| ConfigLoader.LoadWith | config_loader.py:38-99 | Section checks before field checks before presentation defaults. Success iff every check passes. Window, visual and points defaults never overwrite a present value, and those sections gain no key beyond their defaults. The rest of the file is kept. |
| ConfigLoader.LoadConfig | config_loader.py:38-99 | With the file's own default lists, all of LoadWith's contract. A non-dict win fails with AttributeError('win'). Otherwise all missing required sections are reported together. Otherwise the first field-level error is returned. Success iff every check passes. Window, visual and points defaults never overwrite a present value, and those sections gain no key beyond their defaults. The result is the file with text, win, visuals and points replaced and every other key kept. |
| PresentationDefaults.DefaultsHaveDistinctKeys | config_loader.py:47-97 | Each default list names each key once. |

## Left out

- **Display and timing.** Drawing, window flips, waits, frame counting
  (`msToFrames`, `waitFrames`), keyboard polling and the response window are
  not modelled. The reaction time is an input to each trial step:
  - `Option<int>` for the YAML and JavaScript versions, which truncate or
    round it;
  - `Option<real>` for the v2 script.
- **Process control and I/O.** The ESC abort, the shutdown paths, CSV writing
  and download, the Electron main and preload files, YAML parsing,
  `load_text_content`, timestamps and the participant dialog are not
  modelled. The parsed file and the text content are inputs.
- **Randomness.** `random.shuffle` and `Math.random` in `makeTrials` become
  explicit draws, each in [0, i] for position i. `random.uniform` in the
  Python jitter is not modelled. The JavaScript `uniformJitter` takes its
  draw as an input.
- **Floating point.** threshold and scale are fractions, and the hit rate is
  compared by cross-multiplication. Rounding errors of the floating-point
  product are not modelled.
- **`rscore_value`.** The formatted rate in the log is not modelled.
- PcYaml.Session.RunTrial: the `int()` conversions of the condition fields
  (mid_psychopy_pc_yaml.py:194-198) are taken as already done. A configured
  per-condition maximum of None is not modelled. With `.get(label, None)`,
  None falls back to max_ms in `run_trial` but not in the staircase set-up.
- WebSession.Session.RunTrial: a per-condition maximum of `null` for one
  condition is not modelled. In JavaScript, `null` counts as defined, so it
  caps the target at 0. A `per_condition_max_ms` that is a non-object value
  other than `null` is not modelled either.
- WebSession.Session.constructor: `config.points.start || 0` is modelled for
  a number, an absent key and `null`. A truthy non-number start is not
  modelled, because `+=` would then concatenate strings.
- **JavaScript key order.** The model takes `Object.keys` in
  first-insertion order (Trial.Dedup). JavaScript lists integer-like keys
  first, in ascending order; that case is not modelled.
- PcYaml.MakeTrials, PcYaml.BlockTrials, PcV2.MakeTrials and
  PcYaml.PracticeTrials: require at least one condition, because Python
  divides by the number of conditions and raises ZeroDivisionError otherwise.
  The loaders never produce an empty list: the YAML loader substitutes the
  standard conditions.
- PcYaml.BlockTrials: states no per-label counts, because with repeated
  labels in the raw list a label's count is the sum over its entries.
- **v2 script top level.** The v2 script runs its set-up and blocks at module
  level. The constant table, `make_trials`, the staircases and `run_trial`
  are modelled. The block loop itself is not.
- **Integer-valued `window`.** In `deque(maxlen=...)` and `slice(-window)`,
  the window is taken as a natural number. Non-integer windows are not
  modelled.
