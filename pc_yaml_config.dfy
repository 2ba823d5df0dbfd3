/**
 * load_config of mid_psychopy_pc_yaml.py after YAML parsing: every section
 * gets its defaults with setdefault, in a fixed order, without overwriting
 * what the file sets; an absent or empty condition list is replaced by the
 * five standard conditions. Nothing is validated.
 */
module PcYamlConfig {
  import opened Wrappers
  import opened PyValue
  import opened PresentationDefaults

  const TimingDefaults: seq<(string, Value)> := [
    ("cue_ms", Int(250)),
    ("pause1_ms_range", List([Int(750), Int(1250)])),
    ("pause2_ms_range", List([Int(800), Int(1200)])),
    ("pause3_ms_range", List([Int(2000), Int(3000)])),
    ("feedback_ms", Int(500))
  ]

  const StaircaseDefaults: seq<(string, Value)> := [
    ("initial_ms", Int(250)),
    ("min_ms", Int(120)),
    ("max_ms", Int(900)),
    ("step_ms", Int(10)),
    ("per_condition_max_ms", Dict(map[]))
  ]

  /** threshold 75.0 and scale 0.9 are Python floats. */
  const RScoreDefaults: seq<(string, Value)> := [
    ("enabled", Bool(true)),
    ("window", Int(20)),
    ("threshold", Float(75.0)),
    ("scale", Float(0.9)),
    ("scope", Str("global"))
  ]

  const TaskDefaults: seq<(string, Value)> := [
    ("n_blocks", Int(2)),
    ("trials_per_block", Int(36)),
    ("resp_keys", List([Str("space")])),
    ("show_cumulative_points", Bool(true)),
    ("practice_trials", Int(0))
  ]

  /** The sections in the order load_config defaults them. */
  const SectionDefaults: seq<(string, seq<(string, Value)>)> := [
    ("win", WinDefaults),
    ("timings", TimingDefaults),
    ("staircase", StaircaseDefaults),
    ("rscore", RScoreDefaults),
    ("task", TaskDefaults),
    ("visuals", VisualDefaults),
    ("points", PointsDefaults)
  ]

  function ConditionEntry(name: string, valence: int, magnitude: int, pointsHit: int, pointsMiss: int): Value
  {
    List([Str(name), Int(valence), Int(magnitude), Int(pointsHit), Int(pointsMiss)])
  }

  /** The five standard conditions. */
  const DefaultConditions: Value := List([
    ConditionEntry("WIN_LOW", 1, 1, 10, 0),
    ConditionEntry("WIN_HIGH", 1, 5, 50, 0),
    ConditionEntry("AVOID_LOW", -1, 1, 0, -10),
    ConditionEntry("AVOID_HIGH", -1, 5, 0, -50),
    ConditionEntry("NEUTRAL", 0, 0, 0, 0)
  ])

  lemma SectionDefaultsWellFormed()
    ensures WellFormedTable(SectionDefaults)
    ensures "conditions" !in NamesOf(SectionDefaults, |SectionDefaults|)
  {
    DefaultsHaveDistinctKeys();
  }

  /** The list load_config ends with: the file's own when it is present
      and non-empty, the standard one otherwise. */
  function ConditionsAfter(parsed: map<string, Value>, defaultConditions: Value): (v: Value)
    ensures "conditions" in parsed && Truthy(parsed["conditions"]) ==> v == parsed["conditions"]
    ensures !("conditions" in parsed && Truthy(parsed["conditions"])) ==> v == defaultConditions
  {
    if "conditions" !in parsed || !Truthy(parsed["conditions"]) then defaultConditions else parsed["conditions"]
  }

  /** load_config with its default table and standard condition list
      passed in. */
  method LoadWith(parsed: map<string, Value>, table: seq<(string, seq<(string, Value)>)>, defaultConditions: Value)
    returns (r: Result<map<string, Value>, string>)
    requires WellFormedTable(table) && "conditions" !in NamesOf(table, |table|)
    ensures r.Success? <==> forall i :: 0 <= i < |table| ==> Defaultable(parsed, table[i].0)
    ensures r.Failure? ==> exists i :: 0 <= i < |table| && r.error == table[i].0 && !Defaultable(parsed, table[i].0) &&
                                       forall j :: 0 <= j < i ==> Defaultable(parsed, table[j].0)
    ensures r.Success? ==> forall i :: 0 <= i < |table| ==> Filled(parsed, r.value, table[i].0, table[i].1)
    ensures r.Success? ==> "conditions" in r.value && r.value["conditions"] == ConditionsAfter(parsed, defaultConditions)
    ensures r.Success? ==> SameOutside(parsed, r.value, NamesOf(table, |table|) + {"conditions"})
  {
    var filled := DefaultSections(parsed, table);
    if filled.Failure? {
      return filled;
    }
    var cfg := filled.value;
    if "conditions" !in cfg || !Truthy(cfg["conditions"]) {
      cfg := cfg["conditions" := defaultConditions];
    }
    forall i | 0 <= i < |table|
      ensures Filled(parsed, cfg, table[i].0, table[i].1)
    {
      assert table[i].0 in NamesOf(table, |table|);
      assert cfg[table[i].0] == filled.value[table[i].0];
    }
    return Success(cfg);
  }

  /** load_config of mid_psychopy_pc_yaml.py on a parsed file. */
  method LoadConfig(parsed: map<string, Value>) returns (r: Result<map<string, Value>, string>)
    ensures r.Success? <==> forall i :: 0 <= i < |SectionDefaults| ==> Defaultable(parsed, SectionDefaults[i].0)
    ensures r.Failure? ==> exists i :: 0 <= i < |SectionDefaults| && r.error == SectionDefaults[i].0 &&
                                       !Defaultable(parsed, SectionDefaults[i].0) &&
                                       forall j :: 0 <= j < i ==> Defaultable(parsed, SectionDefaults[j].0)
    ensures r.Success? ==> forall i :: 0 <= i < |SectionDefaults| ==>
              Filled(parsed, r.value, SectionDefaults[i].0, SectionDefaults[i].1)
    ensures r.Success? ==> "conditions" in r.value && r.value["conditions"] == ConditionsAfter(parsed, DefaultConditions)
    ensures r.Success? ==> SameOutside(parsed, r.value, NamesOf(SectionDefaults, |SectionDefaults|) + {"conditions"})
  {
    SectionDefaultsWellFormed();
    r := LoadWith(parsed, SectionDefaults, DefaultConditions);
  }
}
