/**
 * config_loader.py: loading a parsed configuration. Presentation settings may
 * default silently; the domain sections and fields must be present, and the
 * loader stops (exit(1), here a Failure) on the first kind of problem it
 * finds: missing sections (all of them reported), then missing fields of the
 * first incomplete section, then a malformed condition list.
 */
module ConfigLoader {
  import opened Wrappers
  import opened PyValue
  import opened PresentationDefaults

  const RequiredSections: seq<string> := ["timings", "staircase", "rscore", "task", "conditions"]
  const TimingFields: seq<string> := ["cue_ms", "pause1_ms_range", "pause2_ms_range", "pause3_ms_range", "feedback_ms"]
  const StaircaseFields: seq<string> := ["initial_ms", "min_ms", "max_ms", "step_ms"]
  const RScoreFields: seq<string> := ["enabled", "window", "threshold", "scale", "scope"]
  const TaskFields: seq<string> := ["n_blocks", "trials_per_block", "resp_keys", "show_cumulative_points", "practice_trials"]

  datatype ConfigError =
    | MissingSections(sections: seq<string>)          // exit(1) after listing them
    | MissingFields(section: string, fields: seq<string>)  // exit(1) after listing them
    | ConditionsNotList                               // exit(1)
    | BadConditionShape(index: nat)                   // exit(1)
    | BadConditionTypes(index: nat)                   // exit(1)
    | TypeError(section: string)                      // `field in section` on a value without `in`
    | AttributeError(section: string)                 // setdefault on a section that is not a dict

  predicate SectionMissing(cfg: map<string, Value>, s: string)
  {
    s !in cfg || !Truthy(cfg[s])
  }

  /** The names, in order, that are absent or empty in cfg. */
  function MissingAmong(cfg: map<string, Value>, names: seq<string>): (r: seq<string>)
    ensures forall s :: s in r <==> s in names && SectionMissing(cfg, s)
  {
    if names == [] then []
    else
      var last := names[|names| - 1];
      MissingAmong(cfg, names[..|names| - 1]) + (if SectionMissing(cfg, last) then [last] else [])
  }

  lemma {:induction false} MissingAmongAgree(c1: map<string, Value>, c2: map<string, Value>, names: seq<string>)
    requires forall s :: s in names ==> (s in c1 <==> s in c2) && (s in c1 ==> c1[s] == c2[s])
    ensures MissingAmong(c1, names) == MissingAmong(c2, names)
  {
    if names != [] {
      MissingAmongAgree(c1, c2, names[..|names| - 1]);
    }
  }

  /** [field for field in required if field not in section], order kept. */
  function MissingFieldsOf(section: Value, required: seq<string>): (r: seq<string>)
    requires SupportsIn(section)
    ensures forall f :: f in r <==> f in required && !PyIn(f, section)
  {
    if required == [] then []
    else (if PyIn(required[0], section) then [] else [required[0]]) + MissingFieldsOf(section, required[1..])
  }

  /** The shared shape of validate_timings, validate_staircase,
      validate_rscore and validate_task. */
  function ValidateFields(name: string, section: Value, required: seq<string>): (r: Outcome<ConfigError>)
    requires required != []
    ensures r.Pass? <==> SupportsIn(section) && forall f :: f in required ==> PyIn(f, section)
    ensures !SupportsIn(section) ==> r == Fail(TypeError(name))
    ensures SupportsIn(section) && r.Fail? ==>
              r.error.MissingFields? && r.error.section == name && r.error.fields != [] &&
              forall f :: f in r.error.fields <==> f in required && !PyIn(f, section)
  {
    if !SupportsIn(section) then Fail(TypeError(name))
    else
      var missing := MissingFieldsOf(section, required);
      if missing != [] then
        assert missing[0] in missing;
        Fail(MissingFields(name, missing))
      else Pass
  }

  /** validate_timings: fails exactly when one of the five timing fields is absent. */
  function ValidateTimings(timings: Value): (r: Outcome<ConfigError>)
    ensures r.Pass? <==> SupportsIn(timings) && forall f :: f in TimingFields ==> PyIn(f, timings)
    ensures r.Fail? ==> r.error == TypeError("timings") || (r.error.MissingFields? && r.error.section == "timings")
  {
    ValidateFields("timings", timings, TimingFields)
  }

  /** validate_staircase: fails exactly when initial_ms, min_ms, max_ms or step_ms is absent. */
  function ValidateStaircase(staircase: Value): (r: Outcome<ConfigError>)
    ensures r.Pass? <==> SupportsIn(staircase) && forall f :: f in StaircaseFields ==> PyIn(f, staircase)
    ensures r.Fail? ==> r.error == TypeError("staircase") || (r.error.MissingFields? && r.error.section == "staircase")
  {
    ValidateFields("staircase", staircase, StaircaseFields)
  }

  /** validate_rscore: fails exactly when one of its five fields is absent. */
  function ValidateRScore(rscore: Value): (r: Outcome<ConfigError>)
    ensures r.Pass? <==> SupportsIn(rscore) && forall f :: f in RScoreFields ==> PyIn(f, rscore)
    ensures r.Fail? ==> r.error == TypeError("rscore") || (r.error.MissingFields? && r.error.section == "rscore")
  {
    ValidateFields("rscore", rscore, RScoreFields)
  }

  /** validate_task: fails exactly when one of its five fields is absent. */
  function ValidateTask(task: Value): (r: Outcome<ConfigError>)
    ensures r.Pass? <==> SupportsIn(task) && forall f :: f in TaskFields ==> PyIn(f, task)
    ensures r.Fail? ==> r.error == TypeError("task") || (r.error.MissingFields? && r.error.section == "task")
  {
    ValidateFields("task", task, TaskFields)
  }

  predicate HasConditionShape(c: Value)
  {
    c.List? && |c.items| == 5
  }

  /** A string label, a numeric valence and a numeric magnitude; the two
      points fields are not checked. */
  predicate WellFormedCondition(c: Value)
  {
    HasConditionShape(c) && c.items[0].Str? && IsNumber(c.items[1]) && IsNumber(c.items[2])
  }

  /** The loop of validate_conditions from entry i on: the first malformed
      entry stops it, a shape error taking precedence over a type error. */
  function CheckConditionsFrom(items: seq<Value>, i: nat): (r: Outcome<ConfigError>)
    requires i <= |items|
    ensures r.Pass? <==> forall j :: i <= j < |items| ==> WellFormedCondition(items[j])
    ensures r.Fail? ==> (r.error.BadConditionShape? || r.error.BadConditionTypes?)
    ensures r.Fail? ==> i <= r.error.index < |items| && !WellFormedCondition(items[r.error.index])
    ensures r.Fail? ==> forall j :: i <= j < r.error.index ==> WellFormedCondition(items[j])
    ensures r.Fail? ==> (r.error.BadConditionShape? <==> !HasConditionShape(items[r.error.index]))
    decreases |items| - i
  {
    if i == |items| then Pass
    else if !HasConditionShape(items[i]) then Fail(BadConditionShape(i))
    else if !WellFormedCondition(items[i]) then Fail(BadConditionTypes(i))
    else CheckConditionsFrom(items, i + 1)
  }

  /** validate_conditions: a non-empty list whose entries are all
      well-formed, otherwise the first problem found. */
  function ValidateConditions(conditions: Value): (r: Outcome<ConfigError>)
    ensures r.Pass? <==> conditions.List? && conditions.items != [] &&
                         forall j :: 0 <= j < |conditions.items| ==> WellFormedCondition(conditions.items[j])
    ensures !(conditions.List? && conditions.items != []) ==> r == Fail(ConditionsNotList)
    ensures conditions.List? && conditions.items != [] && r.Fail? ==>
              (r.error.BadConditionShape? || r.error.BadConditionTypes?) &&
              r.error.index < |conditions.items| && !WellFormedCondition(conditions.items[r.error.index]) &&
              forall j :: 0 <= j < r.error.index ==> WellFormedCondition(conditions.items[j])
  {
    if !conditions.List? || conditions.items == [] then Fail(ConditionsNotList)
    else CheckConditionsFrom(conditions.items, 0)
  }

  /** cfg[name], read only where load_config has already checked that
      the section is present. */
  function Section(cfg: map<string, Value>, name: string): Value
  {
    if name in cfg then cfg[name] else Null
  }

  /** The five sections the field-level validations read. */
  datatype RequiredValues = RequiredValues(timings: Value, staircase: Value, rscore: Value, task: Value, conditions: Value)

  function RequiredOf(cfg: map<string, Value>): RequiredValues
  {
    RequiredValues(Section(cfg, "timings"), Section(cfg, "staircase"), Section(cfg, "rscore"),
                   Section(cfg, "task"), Section(cfg, "conditions"))
  }

  /** The five field-level validations in the order load_config calls them;
      the first failure ends the load. */
  function ValidateAll(req: RequiredValues): (r: Outcome<ConfigError>)
    ensures r.Pass? <==>
              && ValidateTimings(req.timings).Pass?
              && ValidateStaircase(req.staircase).Pass?
              && ValidateRScore(req.rscore).Pass?
              && ValidateTask(req.task).Pass?
              && ValidateConditions(req.conditions).Pass?
    ensures ValidateTimings(req.timings).Fail? ==> r == ValidateTimings(req.timings)
  {
    var t := ValidateTimings(req.timings);
    if t.Fail? then t
    else
      var s := ValidateStaircase(req.staircase);
      if s.Fail? then s
      else
        var rs := ValidateRScore(req.rscore);
        if rs.Fail? then rs
        else
          var tk := ValidateTask(req.task);
          if tk.Fail? then tk
          else ValidateConditions(req.conditions)
  }

  /** Filling a section other than text and win reads it as the parsed
      file had it. */
  lemma FilledThroughWin(parsed: map<string, Value>, text: Value, win: Value, after: map<string, Value>,
                         name: string, defaults: seq<(string, Value)>)
    requires name != "text" && name != "win"
    requires Filled(parsed["text" := text]["win" := win], after, name, defaults)
    ensures Filled(parsed, after, name, defaults)
  {
  }

  /** The loop over the required sections in load_config: the absent or
      empty ones, in their configured order. */
  method CollectMissing(cfg: map<string, Value>) returns (missing: seq<string>)
    ensures missing == MissingAmong(cfg, RequiredSections)
  {
    missing := [];
    for i := 0 to |RequiredSections|
      invariant missing == MissingAmong(cfg, RequiredSections[..i])
    {
      var section := RequiredSections[i];
      if section !in cfg || !Truthy(cfg[section]) {
        missing := missing + [section];
      }
      assert RequiredSections[..i + 1][..i] == RequiredSections[..i];
    }
    assert RequiredSections[..|RequiredSections|] == RequiredSections;
  }

  /** Writing text and win leaves the required sections, and so every
      check on them, as they were in the parsed file. */
  lemma {:induction false} RequiredUnchanged(parsed: map<string, Value>, text: Value, win: Value)
    ensures MissingAmong(parsed["text" := text]["win" := win], RequiredSections) == MissingAmong(parsed, RequiredSections)
    ensures Defaultable(parsed["text" := text]["win" := win], "visuals") == Defaultable(parsed, "visuals")
    ensures Defaultable(parsed["text" := text]["win" := win], "points") == Defaultable(parsed, "points")
    ensures RequiredOf(parsed["text" := text]["win" := win]) == RequiredOf(parsed)
  {
    var cfg := parsed["text" := text]["win" := win];
    forall s | s in RequiredSections
      ensures (s in cfg <==> s in parsed) && (s in cfg ==> cfg[s] == parsed[s])
    {
      SectionNamesDistinct();
    }
    MissingAmongAgree(cfg, parsed, RequiredSections);
    SectionNamesDistinct();
  }

  /** The section names load_config writes and the ones it requires are
      all different. */
  lemma SectionNamesDistinct()
    ensures "timings" != "text" && "timings" != "win" && "timings" != "visuals" && "timings" != "points"
    ensures "staircase" != "text" && "staircase" != "win" && "staircase" != "visuals" && "staircase" != "points"
    ensures "rscore" != "text" && "rscore" != "win" && "rscore" != "visuals" && "rscore" != "points"
    ensures "task" != "text" && "task" != "win" && "task" != "visuals" && "task" != "points"
    ensures "conditions" != "text" && "conditions" != "win" && "conditions" != "visuals" && "conditions" != "points"
    ensures "text" != "win" && "text" != "visuals" && "text" != "points" && "win" != "visuals" && "win" != "points" && "visuals" != "points"
  {
  }

  /** load_config after YAML parsing, with the text content (read from its
      own file) and the three presentation default lists passed in. */
  method LoadWith(parsed: map<string, Value>, text: Value,
                  winDefaults: seq<(string, Value)>, visualDefaults: seq<(string, Value)>,
                  pointsDefaults: seq<(string, Value)>) returns (r: Result<map<string, Value>, ConfigError>)
    requires DistinctKeys(winDefaults) && DistinctKeys(visualDefaults) && DistinctKeys(pointsDefaults)
    // window defaults come first
    ensures !Defaultable(parsed, "win") ==> r == Failure(AttributeError("win"))
    // then every missing section is reported at once
    ensures Defaultable(parsed, "win") && MissingAmong(parsed, RequiredSections) != [] ==>
              r == Failure(MissingSections(MissingAmong(parsed, RequiredSections)))
    // then the field-level checks, in order
    ensures Defaultable(parsed, "win") && MissingAmong(parsed, RequiredSections) == [] ==>
              ValidateAll(RequiredOf(parsed)).Fail? ==> r == Failure(ValidateAll(RequiredOf(parsed)).error)
    // then visual and points defaults
    ensures r.Success? <==>
              && Defaultable(parsed, "win")
              && MissingAmong(parsed, RequiredSections) == []
              && ValidateAll(RequiredOf(parsed)).Pass?
              && Defaultable(parsed, "visuals")
              && Defaultable(parsed, "points")
    ensures r.Success? ==>
              && Filled(parsed, r.value, "win", winDefaults)
              && Filled(parsed, r.value, "visuals", visualDefaults)
              && Filled(parsed, r.value, "points", pointsDefaults)
              && r.value == parsed["text" := text]["win" := r.value["win"]]
                                  ["visuals" := r.value["visuals"]]["points" := r.value["points"]]
  {
    var checked := CheckedConfig(parsed, text, winDefaults);
    if checked.Failure? {
      return checked;
    }
    var cfg := checked.value;
    SectionNamesDistinct();
    RequiredUnchanged(parsed, text, cfg["win"]);
    var done := DefaultPresentation(cfg, visualDefaults, pointsDefaults);
    if done.Failure? {
      return done;
    }
    FilledThroughWin(parsed, text, cfg["win"], done.value, "visuals", visualDefaults);
    FilledThroughWin(parsed, text, cfg["win"], done.value, "points", pointsDefaults);
    FilledTransport(parsed, cfg, parsed, done.value, "win", winDefaults);
    return done;
  }

  /** The first part of load_config: the text content, the window defaults
      and the checks on the required sections. */
  method CheckedConfig(parsed: map<string, Value>, text: Value, winDefaults: seq<(string, Value)>)
    returns (r: Result<map<string, Value>, ConfigError>)
    requires DistinctKeys(winDefaults)
    ensures !Defaultable(parsed, "win") ==> r == Failure(AttributeError("win"))
    ensures Defaultable(parsed, "win") && MissingAmong(parsed, RequiredSections) != [] ==>
              r == Failure(MissingSections(MissingAmong(parsed, RequiredSections)))
    ensures Defaultable(parsed, "win") && MissingAmong(parsed, RequiredSections) == [] ==>
              ValidateAll(RequiredOf(parsed)).Fail? ==> r == Failure(ValidateAll(RequiredOf(parsed)).error)
    ensures r.Success? <==>
              && Defaultable(parsed, "win")
              && MissingAmong(parsed, RequiredSections) == []
              && ValidateAll(RequiredOf(parsed)).Pass?
    ensures r.Success? ==>
              && Filled(parsed, r.value, "win", winDefaults)
              && r.value == parsed["text" := text]["win" := r.value["win"]]
  {
    SectionNamesDistinct();
    var cfg := parsed["text" := text];
    var win := DefaultSection(cfg, "win", winDefaults);
    if win.None? {
      return Failure(AttributeError("win"));
    }
    FilledTransport(cfg, win.value, parsed, win.value, "win", winDefaults);
    cfg := win.value;
    RequiredUnchanged(parsed, text, cfg["win"]);

    var missing := CollectMissing(cfg);
    if missing != [] {
      return Failure(MissingSections(missing));
    }
    var check := ValidateAll(RequiredOf(cfg));
    if check.Fail? {
      return Failure(check.error);
    }
    return Success(cfg);
  }

  /** The visual and points defaults at the end of load_config. */
  method DefaultPresentation(cfg: map<string, Value>, visualDefaults: seq<(string, Value)>,
                             pointsDefaults: seq<(string, Value)>) returns (r: Result<map<string, Value>, ConfigError>)
    requires DistinctKeys(visualDefaults) && DistinctKeys(pointsDefaults)
    ensures !Defaultable(cfg, "visuals") ==> r == Failure(AttributeError("visuals"))
    ensures Defaultable(cfg, "visuals") && !Defaultable(cfg, "points") ==> r == Failure(AttributeError("points"))
    ensures r.Success? <==> Defaultable(cfg, "visuals") && Defaultable(cfg, "points")
    ensures r.Success? ==>
              && Filled(cfg, r.value, "visuals", visualDefaults)
              && Filled(cfg, r.value, "points", pointsDefaults)
              && r.value == cfg["visuals" := r.value["visuals"]]["points" := r.value["points"]]
  {
    SectionNamesDistinct();
    var visuals := DefaultSection(cfg, "visuals", visualDefaults);
    if visuals.None? {
      return Failure(AttributeError("visuals"));
    }
    var points := DefaultSection(visuals.value, "points", pointsDefaults);
    if points.None? {
      return Failure(AttributeError("points"));
    }
    FilledTransport(cfg, visuals.value, cfg, points.value, "visuals", visualDefaults);
    FilledTransport(visuals.value, points.value, cfg, points.value, "points", pointsDefaults);
    return Success(points.value);
  }

  /** load_config with the literal default lists of config_loader.py. */
  method LoadConfig(parsed: map<string, Value>, text: Value) returns (r: Result<map<string, Value>, ConfigError>)
    ensures !Defaultable(parsed, "win") ==> r == Failure(AttributeError("win"))
    ensures Defaultable(parsed, "win") && MissingAmong(parsed, RequiredSections) != [] ==>
              r == Failure(MissingSections(MissingAmong(parsed, RequiredSections)))
    ensures Defaultable(parsed, "win") && MissingAmong(parsed, RequiredSections) == [] ==>
              ValidateAll(RequiredOf(parsed)).Fail? ==> r == Failure(ValidateAll(RequiredOf(parsed)).error)
    ensures r.Success? <==>
              && Defaultable(parsed, "win")
              && MissingAmong(parsed, RequiredSections) == []
              && ValidateAll(RequiredOf(parsed)).Pass?
              && Defaultable(parsed, "visuals")
              && Defaultable(parsed, "points")
    ensures r.Success? ==>
              && Filled(parsed, r.value, "win", WinDefaults)
              && Filled(parsed, r.value, "visuals", VisualDefaults)
              && Filled(parsed, r.value, "points", PointsDefaults)
              && r.value == parsed["text" := text]["win" := r.value["win"]]
                                  ["visuals" := r.value["visuals"]]["points" := r.value["points"]]
  {
    DefaultsHaveDistinctKeys();
    r := LoadWith(parsed, text, WinDefaults, VisualDefaults, PointsDefaults);
  }
}
