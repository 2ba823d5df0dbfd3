/**
 * The presentation defaults that both configuration loaders write with
 * setdefault: window settings, stimulus image paths and the starting points.
 * Both loaders use these same literal values.
 */
module PresentationDefaults {
  import opened PyValue

  const WinDefaults: seq<(string, Value)> := [
    ("size", List([Int(1280), Int(720)])),
    ("fullscr", Bool(false)),
    ("screen_color", Str("black")),
    ("text_color", Str("white")),
    ("fixation_color", Str("white")),
    ("font", Str("Arial")),
    ("useFBO", Bool(false)),
    ("waitBlanking", Bool(false)),
    ("checkTiming", Bool(false))
  ]

  const VisualDefaults: seq<(string, Value)> := [
    ("target_image", Str("images/Target.png")),
    ("cue_images", Dict(map[
      "0" := Str("images/Cue00.png"),
      "1" := Str("images/Cue03.png"),
      "5" := Str("images/Cue30.png")])),
    ("monetary_feedback_images", Dict(map[
      "0" := Str("images/MonetaryFeedbackPositiv00.png"),
      "1" := Str("images/MonetaryFeedbackPositiv03.png"),
      "5" := Str("images/MonetaryFeedbackPositiv30.png")])),
    ("performance_feedback_images", Dict(map[
      "hit" := Str("images/PerformanceFeedbackPositiv.png"),
      "miss" := Str("images/PerformanceFeedbackNegativ.png")])),
    ("text_font_height", Float(0.05))
  ]

  const PointsDefaults: seq<(string, Value)> := [("start", Int(0))]

  lemma DefaultsHaveDistinctKeys()
    ensures DistinctKeys(WinDefaults)
    ensures DistinctKeys(VisualDefaults)
    ensures DistinctKeys(PointsDefaults)
  {
  }
}
