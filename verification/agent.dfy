/**
 * `SurgAgent` (src/agent.py): the agent's selection state, its four
 * append-only logs, and the operations that drive them. Each call to the
 * hosted model is an input `Reply`; the agent object becomes an immutable
 * `State` that every operation returns updated.
 */
module Agent {

  import opened Wrappers
  import opened Json
  import opened ResponseParser

  /** The stage a reasoning step belongs to. */
  datatype Stage = SceneAnalysis | ToolSelection | Replanning | Validation | Tracking

  /** One entry of the reasoning trace; timestamps and prose are not modelled. */
  datatype ReasoningStep = ReasoningStep(stage: Stage, inputs: Option<Obj>, outputs: Option<Obj>)

  /** A change of detector. */
  datatype ToolSwitch = ToolSwitch(
    frame: int,
    fromTool: Value,
    toTool: Value,
    reason: string,
    confidenceBefore: real,
    confidenceAfter: Option<real>,
    reasoning: Value)

  /** A recovery attempt; `success` is recorded without checking anything. */
  datatype RecoveryEvent = RecoveryEvent(
    frame: Value,
    failureType: string,
    recoveryAction: Value,
    success: bool,
    framesToRecover: int,
    toolsUsed: seq<Value>)

  /** Outcome of the three-way threshold policy. */
  datatype Decision = Continue | SwitchTool | Replan

  datatype QualityCheckpoint = QualityCheckpoint(
    frame: int,
    metrics: map<string, real>,
    decision: Decision,
    thresholdUsed: real)

  /** What a call to the hosted model produced: its reply text, or the message of the exception it raised. */
  datatype Reply = Replied(text: string) | Raised(message: string)

  /** One detected instrument in a (simulated) prediction. */
  datatype Detection = Detection(trackId: int, kind: string, confidence: real)

  /** The detections reported for one frame. */
  datatype Prediction = Prediction(frame: int, instruments: seq<Detection>)

  /**
   * The agent object. `detector` and `tracker` hold whatever value the last
   * strategy carried (`Null` before the first selection).
   */
  datatype State = State(
    apiKey: string,
    detector: Value,
    tracker: Value,
    trace: seq<ReasoningStep>,
    toolSwitches: seq<ToolSwitch>,
    recoveryEvents: seq<RecoveryEvent>,
    checkpoints: seq<QualityCheckpoint>,
    confidenceHistory: seq<real>)

  const Threshold: real := 0.65
  const SwitchFloor: real := 0.5
  const DefaultAvgConfidence: real := 0.8
  const DefaultDetector: Value := Str("yolov8_surgical")
  const DefaultTracker: Value := Str("byte_track")
  const DefaultAction: Value := Str("reinitialize")

  /** Python's `a or b` on optional strings: the first one that is present and non-empty. */
  function OrKey(a: Option<string>, b: Option<string>): Option<string> {
    if a.Some? && |a.value| > 0 then a else b
  }

  /**
   * The constructor: the explicit key, else the environment's; a missing or
   * empty key raises `ValueError`. A new agent has no selection and empty logs.
   */
  function Init(apiKey: Option<string>, envKey: Option<string>): (r: Result<State, string>)
    ensures r.Success? <==> (apiKey.Some? && |apiKey.value| > 0) || (envKey.Some? && |envKey.value| > 0)
    ensures r.Success? ==> r.value.apiKey == (if apiKey.Some? && |apiKey.value| > 0 then apiKey.value else envKey.value)
    ensures r.Success? ==> Fresh(r.value)
  {
    var key := OrKey(apiKey, envKey);
    if key.Some? && |key.value| > 0 then Success(NewState(key.value)) else Failure("ValueError")
  }

  function NewState(key: string): State {
    State(key, Null, Null, [], [], [], [], [])
  }

  /** An agent as the constructor leaves it. */
  predicate Fresh(a: State) {
    && a.detector == Null && a.tracker == Null
    && a.trace == [] && a.toolSwitches == [] && a.recoveryEvents == [] && a.checkpoints == []
    && a.confidenceHistory == []
  }

  /** The threshold policy of `quality_check`. */
  function Decide(avg: real): (d: Decision)
    ensures d == Continue <==> avg >= 0.65
    ensures d == SwitchTool <==> 0.5 <= avg < 0.65
    ensures d == Replan <==> avg < 0.5
  {
    if avg >= Threshold then Continue
    else if avg >= SwitchFloor then SwitchTool
    else Replan
  }

  /** How cautious a decision is; larger means further from `continue`. */
  function Severity(d: Decision): nat {
    match d
    case Continue => 0
    case SwitchTool => 1
    case Replan => 2
  }

  /** Lower confidence never gives a less cautious decision. */
  lemma DecideMonotone(lo: real, hi: real)
    requires lo <= hi
    ensures Severity(Decide(hi)) <= Severity(Decide(lo))
  {
  }

  /** `metrics.get("avg_confidence", 0.8)`. */
  function AvgConfidence(metrics: map<string, real>): real {
    if "avg_confidence" in metrics then metrics["avg_confidence"] else DefaultAvgConfidence
  }

  /**
   * `quality_check`: decide, and append exactly one checkpoint recording the
   * frame, the metrics, the decision and the 0.65 threshold.
   */
  function QualityCheck(a: State, frame: int, metrics: map<string, real>): (r: (State, Decision))
    ensures r.1 == Decide(AvgConfidence(metrics))
    ensures "avg_confidence" !in metrics ==> r.1 == Continue
    ensures r.0.checkpoints == a.checkpoints + [QualityCheckpoint(frame, metrics, r.1, 0.65)]
    ensures r.0 == a.(checkpoints := r.0.checkpoints)
  {
    var decision := Decide(AvgConfidence(metrics));
    (a.(checkpoints := a.checkpoints + [QualityCheckpoint(frame, metrics, decision, Threshold)]), decision)
  }

  /** The error dictionary `analyze_scene` returns when the call raises. */
  function SceneError(message: string): Obj {
    map[
      "instruments" := Array([]),
      "scene_challenges" := Array([]),
      "visibility_score" := Int(5),
      "estimated_phase" := Str("unknown"),
      "error" := Str(message)
    ]
  }

  /**
   * `analyze_scene`: on a reply, parse it leniently and log one scene-analysis
   * step; when the call (or loading the image) raises, return the error
   * dictionary and change nothing.
   */
  function AnalyzeScene(a: State, framePath: string, reply: Reply, decode: Decoder): (r: (State, Obj))
    ensures reply.Raised? ==> r.0 == a && r.1 == SceneError(reply.message)
    ensures reply.Raised? ==> Get(r.1, "visibility_score", Null) == Int(5)
    ensures reply.Replied? ==> r.1 == ParseSceneAnalysis(reply.text, decode)
    ensures reply.Replied? ==> r.0 == a.(trace := a.trace + [ReasoningStep(SceneAnalysis, Some(map["frame_path" := Str(framePath)]), Some(r.1))])
  {
    match reply
    case Raised(message) => (a, SceneError(message))
    case Replied(text) =>
      var analysis := ParseSceneAnalysis(text, decode);
      (a.(trace := a.trace + [ReasoningStep(SceneAnalysis, Some(map["frame_path" := Str(framePath)]), Some(analysis))]), analysis)
  }

  /** A `ToolSwitch` is logged when the old detector was truthy and differs from the new one. */
  predicate Switches(oldDetector: Value, newDetector: Value) {
    Truthy(oldDetector) && oldDetector != newDetector
  }

  /** The strategy `select_strategy` returns when the call raises. */
  function StrategyError(message: string): Obj {
    map[
      "detector" := DefaultDetector,
      "tracker" := DefaultTracker,
      "reasoning" := Str("Default strategy (error: " + message + ")")
    ]
  }

  /**
   * `select_strategy`: on a reply, adopt the strategy's detector and tracker
   * (defaults `yolov8_surgical` / `byte_track`), log a `ToolSwitch` when the
   * detector changed from a set one, and log one tool-selection step. When
   * the call raises, return the default strategy and change nothing.
   */
  function SelectStrategy(a: State, scene: Obj, reply: Reply, decode: Decoder): (r: (State, Obj))
    ensures reply.Raised? ==> r.0 == a && r.1 == StrategyError(reply.message)
    ensures reply.Raised? ==> r.1["detector"] == Str("yolov8_surgical") && r.1["tracker"] == Str("byte_track")
    ensures reply.Replied? ==> r.1 == ParseStrategy(reply.text, decode)
    ensures reply.Replied? ==> r.0.detector == Get(r.1, "detector", Str("yolov8_surgical"))
    ensures reply.Replied? ==> r.0.tracker == Get(r.1, "tracker", Str("byte_track"))
    ensures reply.Replied? ==> r.0.trace == a.trace + [ReasoningStep(ToolSelection, Some(map["scene_analysis" := Object(scene)]), Some(r.1))]
    ensures reply.Replied? && Switches(a.detector, r.0.detector) ==>
              r.0.toolSwitches == a.toolSwitches + [ToolSwitch(0, a.detector, r.0.detector, "strategy_update", 0.0, None, Get(r.1, "reasoning", Str("")))]
    ensures reply.Replied? && !Switches(a.detector, r.0.detector) ==> r.0.toolSwitches == a.toolSwitches
    ensures r.0.recoveryEvents == a.recoveryEvents && r.0.checkpoints == a.checkpoints
    ensures r.0.apiKey == a.apiKey && r.0.confidenceHistory == a.confidenceHistory
  {
    match reply
    case Raised(message) => (a, StrategyError(message))
    case Replied(text) =>
      var strategy := ParseStrategy(text, decode);
      var detector := Get(strategy, "detector", DefaultDetector);
      var tracker := Get(strategy, "tracker", DefaultTracker);
      var switches :=
        if Switches(a.detector, detector) then
          a.toolSwitches + [ToolSwitch(0, a.detector, detector, "strategy_update", 0.0, None, Get(strategy, "reasoning", Str("")))]
        else a.toolSwitches;
      var step := ReasoningStep(ToolSelection, Some(map["scene_analysis" := Object(scene)]), Some(strategy));
      (a.(detector := detector, tracker := tracker, toolSwitches := switches, trace := a.trace + [step]), strategy)
  }

  /**
   * `handle_failure`: on a reply, log one optimistic recovery event (success,
   * five frames, the current detector and tracker) and one replanning step,
   * and return the chosen action (default `reinitialize`). When the call
   * raises, return `reinitialize` and change nothing.
   */
  function HandleFailure(a: State, failureType: string, context: Obj, reply: Reply, decode: Decoder): (r: (State, Value))
    ensures reply.Raised? ==> r.0 == a && r.1 == Str("reinitialize")
    ensures reply.Replied? ==> var recovery := ParseRecovery(reply.text, decode);
              && r.1 == Get(recovery, "action", Str("reinitialize"))
              && r.0.recoveryEvents == a.recoveryEvents + [RecoveryEvent(Get(context, "frame", Int(0)), failureType, r.1, true, 5, [a.detector, a.tracker])]
              && r.0.trace == a.trace + [ReasoningStep(Replanning, Some(map["failure_type" := Str(failureType), "context" := Object(context)]), Some(recovery))]
    ensures r.0 == a.(recoveryEvents := r.0.recoveryEvents, trace := r.0.trace)
  {
    match reply
    case Raised(_) => (a, DefaultAction)
    case Replied(text) =>
      var recovery := ParseRecovery(text, decode);
      var action := Get(recovery, "action", DefaultAction);
      var event := RecoveryEvent(Get(context, "frame", Int(0)), failureType, action, true, 5, [a.detector, a.tracker]);
      var step := ReasoningStep(Replanning, Some(map["failure_type" := Str(failureType), "context" := Object(context)]), Some(recovery));
      (a.(recoveryEvents := a.recoveryEvents + [event], trace := a.trace + [step]), action)
  }

  /** The prediction `_simulate_tracking` fabricates for a frame. */
  function SimulatedPrediction(frame: int): Prediction {
    Prediction(frame, [Detection(1, "grasper", 0.9), Detection(2, "bipolar", 0.85)])
  }

  /** The metrics `_simulate_tracking` hands to `quality_check`. */
  const SimulatedMetrics: map<string, real> := map["avg_confidence" := 0.87]

  /** The number of frames `i` in `0 .. n-1` with `i > 0` and `i % 10 == 0`. */
  function CheckedFrames(n: int): nat {
    if n > 0 then (n - 1) / 10 else 0
  }

  /**
   * `_simulate_tracking(n)`: one prediction per frame `0 .. n-1`, and a
   * quality check exactly at the positive multiples of ten below `n`, each of
   * which decides `continue`.
   */
  method SimulateTracking(a: State, numFrames: int) returns (a': State, predictions: seq<Prediction>)
    ensures |predictions| == if numFrames > 0 then numFrames else 0
    ensures forall i :: 0 <= i < |predictions| ==> predictions[i] == SimulatedPrediction(i)
    ensures a' == a.(checkpoints := a'.checkpoints)
    ensures |a'.checkpoints| == |a.checkpoints| + CheckedFrames(numFrames)
    ensures a'.checkpoints[..|a.checkpoints|] == a.checkpoints
    ensures forall k :: |a.checkpoints| <= k < |a'.checkpoints| ==>
              a'.checkpoints[k] == QualityCheckpoint(10 * (k - |a.checkpoints| + 1), SimulatedMetrics, Continue, 0.65)
  {
    a' := a;
    predictions := [];
    var frame := 0;
    while frame < numFrames
      invariant 0 <= frame <= (if numFrames > 0 then numFrames else 0)
      invariant |predictions| == frame
      invariant forall i :: 0 <= i < frame ==> predictions[i] == SimulatedPrediction(i)
      invariant a' == a.(checkpoints := a'.checkpoints)
      invariant |a'.checkpoints| == |a.checkpoints| + CheckedFrames(frame)
      invariant a'.checkpoints[..|a.checkpoints|] == a.checkpoints
      invariant forall k :: |a.checkpoints| <= k < |a'.checkpoints| ==>
                  a'.checkpoints[k] == QualityCheckpoint(10 * (k - |a.checkpoints| + 1), SimulatedMetrics, Continue, 0.65)
    {
      predictions := predictions + [SimulatedPrediction(frame)];
      if frame > 0 && frame % 10 == 0 {
        var r := QualityCheck(a', frame, SimulatedMetrics);
        a' := r.0;
      }
      frame := frame + 1;
    }
  }

  /** The hard-coded scene analysis `track_video` uses in place of a real frame. */
  const PlaceholderScene: Obj := map[
    "instruments" := Array([Object(map["type" := Str("grasper")]), Object(map["type" := Str("bipolar")])]),
    "visibility_score" := Int(8),
    "scene_challenges" := Array([]),
    "estimated_phase" := Str("dissection")
  ]

  /** The closing validation step of `track_video`. */
  const ValidationStep: ReasoningStep :=
    ReasoningStep(Validation, None, Some(map["frames" := Int(30), "tracks" := Int(2)]))

  /** The bundle `track_video` returns, without the video path and the timing. */
  datatype TrackResult = TrackResult(
    predictions: seq<Prediction>,
    toolsUsed: seq<Value>,
    trace: seq<ReasoningStep>,
    toolSwitches: seq<ToolSwitch>,
    recoveryEvents: seq<RecoveryEvent>,
    checkpoints: seq<QualityCheckpoint>)

  /**
   * What line 395 of `track_video` reads to report the strategy:
   * `strategy['detector']` and `strategy['tracker']`, which raise `KeyError`
   * (`None`) when the parsed reply lacks either key.
   */
  function PrintedStrategyAsWritten(strategy: Obj): (r: Option<(Value, Value)>)
    ensures r.Some? <==> "detector" in strategy && "tracker" in strategy
    ensures r.Some? ==> r.value == (strategy["detector"], strategy["tracker"])
  {
    if "detector" in strategy && "tracker" in strategy then Some((strategy["detector"], strategy["tracker"]))
    else None
  }

  /**
   * The pair line 395 evidently means to print: the strategy's detector and
   * tracker, read with the defaults `select_strategy` adopts. It agrees with
   * the indexing as written whenever that does not raise.
   */
  function PrintedStrategy(strategy: Obj): (r: (Value, Value))
    ensures PrintedStrategyAsWritten(strategy).Some? ==> PrintedStrategyAsWritten(strategy) == Some(r)
    ensures "detector" !in strategy ==> r.0 == Str("yolov8_surgical")
    ensures "tracker" !in strategy ==> r.1 == Str("byte_track")
  {
    (Get(strategy, "detector", DefaultDetector), Get(strategy, "tracker", DefaultTracker))
  }

  /** Stage 2 of `track_video`: the strategy for the placeholder scene, and the pair printed from it. */
  method PlaceholderSelection(a: State, reply: Reply, decode: Decoder) returns (a1: State, printed: (Value, Value))
    ensures reply.Replied? ==> printed == (a1.detector, a1.tracker)
    ensures reply.Raised? ==> printed == (Str("yolov8_surgical"), Str("byte_track")) && a1 == a
    ensures reply.Replied? ==> a1.detector == Get(ParseStrategy(reply.text, decode), "detector", Str("yolov8_surgical"))
    ensures reply.Replied? ==> a1.tracker == Get(ParseStrategy(reply.text, decode), "tracker", Str("byte_track"))
    ensures a1.trace == a.trace
              + (if reply.Replied? then [ReasoningStep(ToolSelection, Some(map["scene_analysis" := Object(PlaceholderScene)]), Some(ParseStrategy(reply.text, decode)))] else [])
    ensures a1.checkpoints == a.checkpoints && a1.recoveryEvents == a.recoveryEvents
  {
    var selected := SelectStrategy(a, PlaceholderScene, reply, decode);
    a1, printed := selected.0, PrintedStrategy(selected.1);
  }

  /**
   * `track_video`, reading the strategy's detector and tracker with the
   * defaults `select_strategy` adopts instead of indexing it: select a
   * strategy for the placeholder scene, simulate 30 frames (checkpoints at
   * frames 10 and 20), and close with one validation step. The bundle
   * mirrors the agent's final logs. The printed pair is the strategy's own,
   * so a raised call prints the fallback pair while the agent keeps its tools.
   */
  method TrackVideo(a: State, reply: Reply, decode: Decoder) returns (a': State, printed: (Value, Value), result: TrackResult)
    ensures reply.Replied? ==> printed == (a'.detector, a'.tracker)
    ensures reply.Raised? ==> printed == (Str("yolov8_surgical"), Str("byte_track"))
    ensures reply.Replied? ==> a'.detector == Get(ParseStrategy(reply.text, decode), "detector", Str("yolov8_surgical"))
    ensures reply.Replied? ==> a'.tracker == Get(ParseStrategy(reply.text, decode), "tracker", Str("byte_track"))
    ensures reply.Raised? ==> a'.detector == a.detector && a'.tracker == a.tracker
    ensures |result.predictions| == 30
    ensures forall i :: 0 <= i < 30 ==> result.predictions[i].frame == i
    ensures a'.trace == a.trace
              + (if reply.Replied? then [ReasoningStep(ToolSelection, Some(map["scene_analysis" := Object(PlaceholderScene)]), Some(ParseStrategy(reply.text, decode)))] else [])
              + [ValidationStep]
    ensures a'.checkpoints == a.checkpoints + [QualityCheckpoint(10, SimulatedMetrics, Continue, 0.65), QualityCheckpoint(20, SimulatedMetrics, Continue, 0.65)]
    ensures a'.recoveryEvents == a.recoveryEvents
    ensures result == TrackResult(result.predictions, [a'.detector, a'.tracker], a'.trace, a'.toolSwitches, a'.recoveryEvents, a'.checkpoints)
  {
    var a1, predictions;
    a1, printed := PlaceholderSelection(a, reply, decode);
    a', predictions := TrackAndValidate(a1);
    result := TrackResult(predictions, [a'.detector, a'.tracker], a'.trace, a'.toolSwitches, a'.recoveryEvents, a'.checkpoints);
  }

  /** Stages 3 and 4 of `track_video`: 30 simulated frames, checked at frames 10 and 20, then the validation step. */
  method TrackAndValidate(a: State) returns (a': State, predictions: seq<Prediction>)
    ensures |predictions| == 30
    ensures forall i :: 0 <= i < 30 ==> predictions[i].frame == i
    ensures a' == a.(checkpoints := a'.checkpoints, trace := a'.trace)
    ensures a'.trace == a.trace + [ValidationStep]
    ensures a'.checkpoints == a.checkpoints + [QualityCheckpoint(10, SimulatedMetrics, Continue, 0.65), QualityCheckpoint(20, SimulatedMetrics, Continue, 0.65)]
  {
    var a2;
    a2, predictions := SimulateTracking(a, 30);
    assert a2.checkpoints == a.checkpoints + a2.checkpoints[|a.checkpoints|..];
    a' := a2.(trace := a2.trace + [ValidationStep]);
  }

  /** One line of the text `get_reasoning_summary` renders; step lines refer to a trace position. */
  datatype SummaryLine =
    | Rule
    | Title
    | StageLine(stage: Stage)
    | ActionLine(step: nat)
    | ReasoningLine(step: nat)
    | ToolSwitchCount(switches: nat)
    | RecoveryCount(recoveries: nat)
    | CheckpointCount(checkpoints: nat)

  /** The three lines of each of the first `n` trace steps. */
  function StepLines(trace: seq<ReasoningStep>, n: nat): (lines: seq<SummaryLine>)
    requires n <= |trace|
    ensures |lines| == 3 * n
    ensures forall k :: 0 <= k < |lines| ==> lines[k].StageLine? || lines[k].ActionLine? || lines[k].ReasoningLine?
    ensures forall i :: 0 <= i < n ==>
              lines[3 * i] == StageLine(trace[i].stage) && lines[3 * i + 1] == ActionLine(i) && lines[3 * i + 2] == ReasoningLine(i)
  {
    if n == 0 then []
    else StepLines(trace, n - 1) + [StageLine(trace[n - 1].stage), ActionLine(n - 1), ReasoningLine(n - 1)]
  }

  /**
   * `get_reasoning_summary`: a banner, three lines per reasoning step in
   * order, the switch and recovery counts only when non-zero, and always the
   * checkpoint count last.
   */
  function ReasoningSummary(a: State): (lines: seq<SummaryLine>)
    ensures |lines| == 3 + 3 * |a.trace| + (if |a.toolSwitches| > 0 then 1 else 0)
                       + (if |a.recoveryEvents| > 0 then 1 else 0) + 1
    ensures lines[..3] == [Rule, Title, Rule]
    ensures forall i :: 0 <= i < |a.trace| ==> lines[3 + 3 * i] == StageLine(a.trace[i].stage)
    ensures ToolSwitchCount(|a.toolSwitches|) in lines <==> |a.toolSwitches| > 0
    ensures RecoveryCount(|a.recoveryEvents|) in lines <==> |a.recoveryEvents| > 0
    ensures lines[|lines| - 1] == CheckpointCount(|a.checkpoints|)
  {
    var steps := StepLines(a.trace, |a.trace|);
    var switches := if |a.toolSwitches| > 0 then [ToolSwitchCount(|a.toolSwitches|)] else [];
    var recoveries := if |a.recoveryEvents| > 0 then [RecoveryCount(|a.recoveryEvents|)] else [];
    var lines := [Rule, Title, Rule] + steps + switches + recoveries + [CheckpointCount(|a.checkpoints|)];
    assert forall i :: 0 <= i < |a.trace| ==> lines[3 + 3 * i] == steps[3 * i];
    assert ToolSwitchCount(|a.toolSwitches|) !in steps;
    assert RecoveryCount(|a.recoveryEvents|) !in steps;
    lines
  }
}
