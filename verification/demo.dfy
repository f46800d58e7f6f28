/**
 * The synthetic demo (src/demo.py): four fixed scenarios, scenario-key
 * selection, and the mock trace `generate_predictions` fabricates for a
 * scenario — per-frame confidences, at most one tool switch and one recovery,
 * checkpoints every 15 frames, and a four-stage reasoning trace.
 */
module Demo {

  import opened Wrappers
  import opened Agent
  import opened Sampling

  datatype Difficulty = Easy | Medium | Hard

  /** A demo scenario; the description and expected score range are not modelled. */
  datatype Scenario = Scenario(
    name: string,
    numFrames: int,
    difficulty: Difficulty,
    hasOcclusion: bool,
    hasToolSwitch: bool,
    hasFailureRecovery: bool)

  /** The keys of `DEMO_SCENARIOS`, in declaration order. */
  const ScenarioKeys: seq<string> := ["basic", "adaptive", "failure_recovery", "high_performance"]

  const DemoScenarios: map<string, Scenario> := map[
    "basic" := Scenario("Basic Tracking", 30, Easy, false, false, false),
    "adaptive" := Scenario("Adaptive Tool Selection", 60, Medium, true, true, false),
    "failure_recovery" := Scenario("Failure Recovery", 60, Hard, true, true, true),
    "high_performance" := Scenario("High Performance Agent", 90, Hard, true, true, true)
  ]

  /** The key list and the scenario table agree, and every scenario has frames. */
  lemma ScenarioTable()
    ensures forall k :: k in DemoScenarios <==> k in ScenarioKeys
    ensures forall k :: k in DemoScenarios ==> DemoScenarios[k].numFrames > 0
  {
  }

  // ---------------------------------------------------------------------------
  // Scenario selection
  // ---------------------------------------------------------------------------

  /**
   * The keys `run_demo` evaluates: every scenario, in declaration order, when
   * no selection is given or it contains `"all"`; otherwise the known names of
   * the selection, in its order (repeats included).
   */
  function SelectScenarioKeys(selection: Option<seq<string>>): (r: seq<string>)
    ensures selection.None? || "all" in selection.value ==> r == ScenarioKeys
    ensures selection.Some? && "all" !in selection.value ==>
              && Subsequence(r, selection.value)
              && forall k :: k in r <==> k in selection.value && k in DemoScenarios
    ensures selection.Some? && "all" !in selection.value ==>
              forall k :: multiset(r)[k] == if k in DemoScenarios then multiset(selection.value)[k] else 0
    ensures forall i :: 0 <= i < |r| ==> r[i] in DemoScenarios
  {
    ScenarioTable();
    if selection.None? || "all" in selection.value then ScenarioKeys
    else
      KnownNames(selection.value);
      Filter(selection.value, Known)
  }

  predicate Known(name: string) {
    name in DemoScenarios
  }

  /** The known names of a selection: in order, every occurrence kept, nothing else. */
  lemma KnownNames(names: seq<string>)
    ensures Subsequence(Filter(names, Known), names)
    ensures forall k :: k in Filter(names, Known) <==> k in names && k in DemoScenarios
    ensures forall k :: multiset(Filter(names, Known))[k] == if k in DemoScenarios then multiset(names)[k] else 0
  {
    FilterSubsequence(names, Known);
    FilterMembers(names, Known);
    FilterMultiset(names, Known);
  }

  /** The command line's single `--scenario` name: only a known name selects anything. */
  lemma SingleNameSelection(name: string)
    requires name != "all"
    ensures SelectScenarioKeys(Some([name])) == if name in DemoScenarios then [name] else []
  {
    var r := SelectScenarioKeys(Some([name]));
    assert |r| <= 1;
    if name in DemoScenarios {
      assert name in r;
    }
  }

  /** A name given twice is evaluated twice, as the comprehension keeps every occurrence. */
  lemma RepeatedNameEvaluatedTwice()
    ensures SelectScenarioKeys(Some(["basic", "basic"])) == ["basic", "basic"]
  {
    var sel := ["basic", "basic"];
    var r := SelectScenarioKeys(Some(sel));
    assert "all" !in sel;
    assert multiset(sel)["basic"] == 2;
    assert multiset(r)["basic"] == 2;
    assert forall i :: 0 <= i < |r| ==> r[i] == "basic";
    assert |r| == 2;
  }

  // ---------------------------------------------------------------------------
  // Confidences
  // ---------------------------------------------------------------------------

  /** The confidence before clamping: the base, the occlusion dip, the recovery bump, and the `frame % 5` ripple. */
  function RawConfidence(s: Scenario, frame: nat): real {
    var base := if s.difficulty == Easy then 0.92 else 0.82;
    var dipped := if s.hasOcclusion && 15 <= frame <= 25 then base - 0.12 else base;
    var bumped := if s.hasFailureRecovery && frame > 25 then dipped + 0.05 else dipped;
    bumped + (frame % 5) as real * 0.01
  }

  /** `min(0.98, max(0.65, raw))`. */
  function Clamp(raw: real): (c: real)
    ensures 0.65 <= c <= 0.98
    ensures 0.65 <= raw <= 0.98 ==> c == raw
    ensures raw < 0.65 ==> c == 0.65
    ensures raw > 0.98 ==> c == 0.98
  {
    var low := if raw > 0.65 then raw else 0.65;
    if low < 0.98 then low else 0.98
  }

  /** The grasper confidence of a frame. */
  function Confidence(s: Scenario, frame: nat): (c: real)
    ensures 0.65 <= c <= 0.98
  {
    Clamp(RawConfidence(s, frame))
  }

  /** In the basic scenario the clamp never bites: confidence is 0.92 plus the ripple. */
  lemma BasicUnclamped(frame: nat)
    ensures Confidence(DemoScenarios["basic"], frame) == 0.92 + (frame % 5) as real * 0.01
  {
    var s := DemoScenarios["basic"];
    assert s.difficulty == Easy && !s.hasOcclusion && !s.hasFailureRecovery;
  }

  /** During the occlusion window of an occluded scenario that is not easy, confidence drops to 0.70 plus the ripple. */
  lemma OcclusionDip(s: Scenario, frame: nat)
    requires s.hasOcclusion && s.difficulty != Easy && 15 <= frame <= 25
    ensures Confidence(s, frame) == 0.70 + (frame % 5) as real * 0.01
  {
  }

  /** The fabricated prediction of a frame: a grasper and a bipolar 0.05 less confident. */
  function DemoPrediction(s: Scenario, frame: nat): (p: Prediction)
    ensures p.frame == frame && |p.instruments| == 2
    ensures p.instruments[0].trackId == 1 && p.instruments[1].trackId == 2
    ensures 0.65 <= p.instruments[0].confidence <= 0.98
    ensures p.instruments[1].confidence == p.instruments[0].confidence - 0.05
  {
    var c := Confidence(s, frame);
    Prediction(frame, [Detection(1, "grasper", c), Detection(2, "bipolar", c - 0.05)])
  }

  // ---------------------------------------------------------------------------
  // Checkpoints
  // ---------------------------------------------------------------------------

  /** `range(15, num_frames, 15)`. */
  function CheckpointFrames(n: int): (r: seq<int>)
    ensures forall c :: c in r <==> 15 <= c < n && c % 15 == 0
    ensures forall i, j :: 0 <= i < j < |r| ==> r[i] < r[j]
    ensures n > 0 ==> |r| == (n - 1) / 15
  {
    var count := if n > 0 then (n - 1) / 15 else 0;
    var r := seq(count, k => 15 * (k + 1));
    forall c | 15 <= c < n && c % 15 == 0 ensures c in r {
      assert r[c / 15 - 1] == c;
    }
    r
  }

  lemma ScenarioCheckpoints()
    ensures CheckpointFrames(30) == [15]
    ensures CheckpointFrames(60) == [15, 30, 45]
    ensures CheckpointFrames(90) == [15, 30, 45, 60, 75]
  {
    assert CheckpointFrames(30)[0] == 15;
    var r60 := CheckpointFrames(60);
    assert r60[0] == 15 && r60[1] == 30 && r60[2] == 45;
    var r90 := CheckpointFrames(90);
    assert r90[0] == 15 && r90[1] == 30 && r90[2] == 45 && r90[3] == 60 && r90[4] == 75;
  }

  // ---------------------------------------------------------------------------
  // The generated trace
  // ---------------------------------------------------------------------------

  datatype DemoSwitch = DemoSwitch(frame: int, fromTool: string, toTool: string, reason: string)

  datatype DemoRecovery = DemoRecovery(frame: int, failureType: string, action: string, success: bool, framesToRecover: int)

  /** What `generate_predictions` returns, without timestamps, prose, the rounded scores and the checkpoint decisions. */
  datatype Generated = Generated(
    predictions: seq<Prediction>,
    toolsUsed: seq<string>,
    stages: seq<Stage>,
    switches: seq<DemoSwitch>,
    recoveries: seq<DemoRecovery>,
    checkpoints: seq<int>)

  /** The reasoning stages, in the order the trace is built. */
  const DemoStages: seq<Stage> := [SceneAnalysis, ToolSelection, Tracking, Validation]

  const DemoSwitchRecord := DemoSwitch(15, "yolov8_surgical", "advanced_detector", "occlusion_detected")

  const DemoRecoveryRecord := DemoRecovery(20, "track_loss", "reinitialize", true, 5)

  /**
   * `generate_predictions`: one prediction per frame, the switch and the
   * recovery exactly when the scenario has them, and a checkpoint at each
   * multiple of 15 below the frame count. The closing average divides by the
   * number of frames, so a scenario without frames raises.
   */
  method GeneratePredictions(s: Scenario) returns (r: Result<Generated, string>)
    ensures r.Success? <==> s.numFrames > 0
    ensures r.Success? ==> |r.value.predictions| == s.numFrames
    ensures r.Success? ==> forall i :: 0 <= i < |r.value.predictions| ==> r.value.predictions[i] == DemoPrediction(s, i)
    ensures r.Success? ==> r.value.stages == DemoStages
    ensures r.Success? ==> (|r.value.switches| == 1 <==> s.hasToolSwitch) && |r.value.switches| <= 1
    ensures r.Success? && s.hasToolSwitch ==> r.value.switches[0] == DemoSwitchRecord
    ensures r.Success? ==> (|r.value.recoveries| == 1 <==> s.hasFailureRecovery) && |r.value.recoveries| <= 1
    ensures r.Success? && s.hasFailureRecovery ==> r.value.recoveries[0] == DemoRecoveryRecord
    ensures r.Success? ==> |r.value.toolsUsed| >= 2 && r.value.toolsUsed[..2] == ["yolov8_surgical", "byte_track"]
    ensures r.Success? ==> ("advanced_detector" in r.value.toolsUsed <==> s.hasToolSwitch)
    ensures r.Success? ==> r.value.checkpoints == CheckpointFrames(s.numFrames)
  {
    var predictions: seq<Prediction> := [];
    var frame := 0;
    while frame < s.numFrames
      invariant 0 <= frame && (s.numFrames > 0 ==> frame <= s.numFrames)
      invariant |predictions| == frame
      invariant forall i :: 0 <= i < frame ==> predictions[i] == DemoPrediction(s, i)
    {
      predictions := predictions + [DemoPrediction(s, frame)];
      frame := frame + 1;
    }
    var switches := if s.hasToolSwitch then [DemoSwitchRecord] else [];
    var recoveries := if s.hasFailureRecovery then [DemoRecoveryRecord] else [];
    var checkpoints: seq<int> := [];
    var check := 15;
    while check < s.numFrames
      invariant check == 15 * (|checkpoints| + 1)
      invariant forall k :: 0 <= k < |checkpoints| ==> checkpoints[k] == 15 * (k + 1)
      invariant |checkpoints| == 0 || 15 * |checkpoints| < s.numFrames
      decreases s.numFrames - check
    {
      checkpoints := checkpoints + [check];
      check := check + 15;
    }
    if s.numFrames <= 0 {
      r := Failure("ZeroDivisionError");
      return;
    }
    CheckpointsComplete(s.numFrames, checkpoints);
    var tools := ["yolov8_surgical", "byte_track"] + (if s.hasToolSwitch then ["advanced_detector"] else []);
    r := Success(Generated(predictions, tools, DemoStages, switches, recoveries, checkpoints));
  }

  /** The checkpoint loop stops exactly after the last multiple of 15 below `n`. */
  lemma CheckpointsComplete(n: int, checkpoints: seq<int>)
    requires n > 0
    requires 15 * (|checkpoints| + 1) >= n
    requires forall k :: 0 <= k < |checkpoints| ==> checkpoints[k] == 15 * (k + 1)
    requires |checkpoints| == 0 || 15 * |checkpoints| < n
    ensures checkpoints == CheckpointFrames(n)
  {
    assert |checkpoints| == (n - 1) / 15;
  }

  // ---------------------------------------------------------------------------
  // The demo run
  // ---------------------------------------------------------------------------

  /** One evaluated scenario; the composite score is supplied, since its floating-point formula is not modelled. */
  datatype DemoResult = DemoResult(key: string, scenario: Scenario, composite: real, trace: seq<Stage>)

  function Sum(xs: seq<real>): real {
    if |xs| == 0 then 0.0 else Sum(xs[..|xs| - 1]) + xs[|xs| - 1]
  }

  function Composites(results: seq<DemoResult>): (r: seq<real>)
    ensures |r| == |results| && forall i :: 0 <= i < |r| ==> r[i] == results[i].composite
  {
    seq(|results|, i requires 0 <= i < |results| => results[i].composite)
  }

  /** The summary's average as written: `ZeroDivisionError` when nothing was evaluated. */
  function AverageAsWritten(results: seq<DemoResult>): (r: Result<real, string>)
    ensures r.Failure? <==> results == []
    ensures r.Success? ==> r.value * |results| as real == Sum(Composites(results))
  {
    if |results| == 0 then Failure("ZeroDivisionError")
    else Success(Sum(Composites(results)) / |results| as real)
  }

  /** The summary's average with the empty case guarded: no average when nothing was evaluated. */
  function Average(results: seq<DemoResult>): (r: Option<real>)
    ensures r.None? <==> results == []
    ensures r.Some? ==> AverageAsWritten(results) == Success(r.value)
  {
    if |results| == 0 then None else Some(AverageAsWritten(results).value)
  }

  /** `evaluate_scenario` on a known key: the generated trace always succeeds, since every scenario has frames. */
  method EvaluateScenario(key: string, composite: Scenario -> real) returns (result: DemoResult)
    requires key in DemoScenarios
    ensures result.key == key && result.scenario == DemoScenarios[key]
    ensures result.composite == composite(result.scenario) && result.trace == DemoStages
  {
    ScenarioTable();
    var scenario := DemoScenarios[key];
    var generated := GeneratePredictions(scenario);
    result := DemoResult(key, scenario, composite(scenario), generated.value.stages);
  }

  /**
   * `run_demo` with the summary average guarded: each selected scenario is
   * evaluated in order, and its recorded trace is the four demo stages.
   */
  method RunDemo(selection: Option<seq<string>>, composite: Scenario -> real)
    returns (results: seq<DemoResult>, average: Option<real>)
    ensures |results| == |SelectScenarioKeys(selection)|
    ensures forall i :: 0 <= i < |results| ==>
              && results[i].key == SelectScenarioKeys(selection)[i]
              && results[i].scenario == DemoScenarios[results[i].key]
              && results[i].composite == composite(results[i].scenario)
              && results[i].trace == DemoStages
    ensures average.None? <==> results == []
    ensures average.Some? ==> AverageAsWritten(results) == Success(average.value)
  {
    results := EvaluateAll(SelectScenarioKeys(selection), composite);
    average := Average(results);
  }

  /** The evaluation loop of `run_demo` over known keys. */
  method EvaluateAll(keys: seq<string>, composite: Scenario -> real) returns (results: seq<DemoResult>)
    requires forall i :: 0 <= i < |keys| ==> keys[i] in DemoScenarios
    ensures |results| == |keys|
    ensures forall i :: 0 <= i < |results| ==>
              && results[i].key == keys[i]
              && results[i].scenario == DemoScenarios[results[i].key]
              && results[i].composite == composite(results[i].scenario)
              && results[i].trace == DemoStages
  {
    results := [];
    var i := 0;
    while i < |keys|
      invariant 0 <= i <= |keys|
      invariant |results| == i
      invariant forall j :: 0 <= j < i ==>
                  && results[j].key == keys[j]
                  && results[j].scenario == DemoScenarios[keys[j]]
                  && results[j].composite == composite(results[j].scenario)
                  && results[j].trace == DemoStages
    {
      var result := EvaluateScenario(keys[i], composite);
      results := results + [result];
      i := i + 1;
    }
  }

  /** Naming an unknown scenario evaluates nothing, so the summary average as written divides by zero. */
  lemma UnknownScenarioBreaksSummary()
    ensures SelectScenarioKeys(Some(["unknown"])) == []
    ensures AverageAsWritten([]).Failure?
    ensures Average([]).None?
  {
    SingleNameSelection("unknown");
  }
}
