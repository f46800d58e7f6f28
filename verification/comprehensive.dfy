/**
 * `run_comprehensive_test` (src/test_comprehensive.py): a few evenly spaced
 * images of the dataset are analysed, a strategy is selected from the last
 * analysis, and two fixed failure scenarios are handed to the agent.
 */
module Comprehensive {

  import opened Wrappers
  import opened Json
  import opened ResponseParser
  import opened Agent
  import opened Sampling
  import opened FrameRuns

  /** How many images the run analyses at most. */
  const MaxImages := 3

  /**
   * `find_test_images(max_images)` over the dataset's sorted image list: no
   * images without a dataset; otherwise the evenly spaced pick (all of them
   * when there are fewer than `max_images`). `max_images == 0` divides by zero.
   */
  function FindTestImages(datasetExists: bool, allImages: seq<string>, maxImages: int): (r: Result<seq<string>, string>)
    ensures !datasetExists ==> r == Success([])
    ensures datasetExists ==> (r.Failure? <==> maxImages == 0)
    ensures r.Success? ==> Subsequence(r.value, allImages)
    ensures datasetExists && 0 < maxImages <= |allImages| ==>
              |r.value| == maxImages &&
              forall i :: 0 <= i < maxImages ==> r.value[i] == allImages[i * (|allImages| / maxImages)]
    ensures datasetExists && maxImages > |allImages| ==> r == Success(allImages)
  {
    if !datasetExists then Success([])
    else
      EvenSampleSubsequence(allImages, maxImages);
      EvenSample(allImages, maxImages)
  }

  /** The run's selection always succeeds and picks between one and three images when the dataset has any. */
  lemma RunPicksAtMostThree(allImages: seq<string>)
    ensures FindTestImages(true, allImages, MaxImages).Success?
    ensures |FindTestImages(true, allImages, MaxImages).value| == if |allImages| < 3 then |allImages| else 3
  {
  }

  /** The first failure scenario: a track lost at frame 50. */
  const TrackLossContext: Obj := map["frame" := Int(50), "confidence" := Real(0.3), "last_seen" := Str("frame 45")]

  /** The second failure scenario: low confidence at frame 100. */
  const LowConfidenceContext: Obj := map["frame" := Int(100), "confidence" := Real(0.45), "scene" := Str("heavy smoke")]

  /** The number of failure scenarios the run hands to the agent. */
  const FailureScenarios := 2

  /** One analysed image. */
  datatype SceneResult = SceneResult(image: string, analysis: Obj)

  /** The saved report, without timestamps and timings. */
  datatype ComprehensiveReport = ComprehensiveReport(
    scenes: seq<SceneResult>,
    strategy: Obj,
    actions: seq<Value>,
    totalCalls: nat)

  /** The scene-analysis loop over the chosen images. */
  method AnalyzeImages(a: State, images: seq<string>, reply: string -> Reply, decode: Decoder)
    returns (a': State, results: seq<SceneResult>)
    ensures ScenesOnly(a, a')
    ensures |results| == |images|
    ensures forall k :: 0 <= k < |images| ==> results[k] == SceneResult(images[k], SceneOf(reply(images[k]), decode))
  {
    a' := a;
    results := [];
    var i := 0;
    while i < |images|
      invariant 0 <= i <= |images|
      invariant ScenesOnly(a, a')
      invariant |results| == i
      invariant forall k :: 0 <= k < i ==> results[k] == SceneResult(images[k], SceneOf(reply(images[k]), decode))
    {
      var next := AnalyzeScene(a', images[i], reply(images[i]), decode);
      AnalyzeSceneScenesOnly(a', images[i], reply(images[i]), decode);
      ScenesOnlyTrans(a, a', next.0);
      a' := next.0;
      results := results + [SceneResult(images[i], next.1)];
      i := i + 1;
    }
  }

  /** 1 when the call produced a reply, 0 when it raised. */
  function Answered(reply: Reply): nat {
    if reply.Replied? then 1 else 0
  }

  /** The frames the two scenario contexts carry. */
  lemma ContextFrames()
    ensures Get(TrackLossContext, "frame", Int(0)) == Int(50)
    ensures Get(LowConfidenceContext, "frame", Int(0)) == Int(100)
  {
  }

  /**
   * One `handle_failure` call seen from its log: an answered call appends one
   * event for the given frame and failure type naming the current tools; a
   * raised call appends nothing.
   */
  lemma RecoveryLogged(a: State, failureType: string, context: Obj, reply: Reply, decode: Decoder)
    ensures |HandleFailure(a, failureType, context, reply, decode).0.recoveryEvents| == |a.recoveryEvents| + Answered(reply)
    ensures HandleFailure(a, failureType, context, reply, decode).0.recoveryEvents[..|a.recoveryEvents|] == a.recoveryEvents
    ensures reply.Replied? ==>
              && HandleFailure(a, failureType, context, reply, decode).0.recoveryEvents[|a.recoveryEvents|].frame == Get(context, "frame", Int(0))
              && HandleFailure(a, failureType, context, reply, decode).0.recoveryEvents[|a.recoveryEvents|].failureType == failureType
              && HandleFailure(a, failureType, context, reply, decode).0.recoveryEvents[|a.recoveryEvents|].toolsUsed == [a.detector, a.tracker]
    ensures HandleFailure(a, failureType, context, reply, decode).0 ==
              a.(recoveryEvents := HandleFailure(a, failureType, context, reply, decode).0.recoveryEvents,
                 trace := HandleFailure(a, failureType, context, reply, decode).0.trace)
  {
  }

  /**
   * The failure-scenario loop: `track_loss` at frame 50, then
   * `low_confidence` at frame 100. Each answered call logs one recovery event
   * naming the agent's current tools; nothing else about the tools changes.
   */
  method HandleScenarios(a: State, trackLossReply: Reply, lowConfidenceReply: Reply, decode: Decoder)
    returns (a': State, actions: seq<Value>)
    ensures |actions| == FailureScenarios
    ensures a'.apiKey == a.apiKey && a'.toolSwitches == a.toolSwitches && a'.checkpoints == a.checkpoints
    ensures |a'.recoveryEvents| == |a.recoveryEvents| + Answered(trackLossReply) + Answered(lowConfidenceReply)
    ensures a'.recoveryEvents[..|a.recoveryEvents|] == a.recoveryEvents
    ensures trackLossReply.Replied? ==>
              a'.recoveryEvents[|a.recoveryEvents|].frame == Int(50) &&
              a'.recoveryEvents[|a.recoveryEvents|].failureType == "track_loss"
    ensures lowConfidenceReply.Replied? ==>
              a'.recoveryEvents[|a'.recoveryEvents| - 1].frame == Int(100) &&
              a'.recoveryEvents[|a'.recoveryEvents| - 1].failureType == "low_confidence"
    ensures forall k :: |a.recoveryEvents| <= k < |a'.recoveryEvents| ==> a'.recoveryEvents[k].toolsUsed == [a.detector, a.tracker]
  {
    var first := HandleFailure(a, "track_loss", TrackLossContext, trackLossReply, decode);
    RecoveryLogged(a, "track_loss", TrackLossContext, trackLossReply, decode);
    var second := HandleFailure(first.0, "low_confidence", LowConfidenceContext, lowConfidenceReply, decode);
    RecoveryLogged(first.0, "low_confidence", LowConfidenceContext, lowConfidenceReply, decode);
    ContextFrames();
    assert second.0.recoveryEvents[..|first.0.recoveryEvents|] == first.0.recoveryEvents;
    a', actions := second.0, [first.1, second.1];
  }

  /**
   * The strategy step on an agent that has only analysed scenes since it was
   * created: no switch is logged, and a raised call leaves the tools unset.
   */
  method SelectAfterScenes(a0: State, a: State, scene: Obj, reply: Reply, decode: Decoder) returns (a': State, strategy: Obj)
    requires Fresh(a0) && ScenesOnly(a0, a)
    ensures strategy == StrategyOf(reply, decode)
    ensures a'.apiKey == a0.apiKey && a'.toolSwitches == [] && a'.checkpoints == [] && a'.recoveryEvents == []
    ensures reply.Raised? ==> a'.detector == Null && a'.tracker == Null
  {
    FreshSelectionNoSwitch(a0, a, scene, reply, decode);
    var selected := SelectStrategy(a, scene, reply, decode);
    a', strategy := selected.0, selected.1;
  }

  /**
   * `run_comprehensive_test`: the agent is created first; without images
   * nothing else happens. Otherwise each image is analysed and one strategy is
   * selected from the last analysis. Printing that strategy's reasoning
   * raises when it cannot be sliced, before any failure scenario runs;
   * otherwise both failure scenarios are handled. The reported call count is
   * the analyses, plus one, plus the scenarios.
   */
  method RunComprehensive(key: string, datasetExists: bool, allImages: seq<string>, reply: string -> Reply,
                          strategyReply: Reply, trackLossReply: Reply, lowConfidenceReply: Reply, decode: Decoder)
    returns (agent: State, r: Result<Option<ComprehensiveReport>, string>)
    requires key != ""
    ensures agent.apiKey == key && agent.toolSwitches == [] && agent.checkpoints == []
    ensures r == Success(None) <==> FindTestImages(datasetExists, allImages, MaxImages).value == []
    ensures r == Success(None) ==> agent == NewState(key)
    ensures r.Failure? <==>
              FindTestImages(datasetExists, allImages, MaxImages).value != [] && !ReasoningPrints(StrategyOf(strategyReply, decode))
    ensures r.Failure? ==> agent.recoveryEvents == []
    ensures r.Success? && r.value.Some? ==> |r.value.value.scenes| == |FindTestImages(datasetExists, allImages, MaxImages).value|
    ensures r.Success? && r.value.Some? ==> forall k :: 0 <= k < |r.value.value.scenes| ==>
              r.value.value.scenes[k].image == FindTestImages(datasetExists, allImages, MaxImages).value[k] &&
              r.value.value.scenes[k].analysis == SceneOf(reply(r.value.value.scenes[k].image), decode)
    ensures r.Success? && r.value.Some? ==> r.value.value.totalCalls == |r.value.value.scenes| + 1 + FailureScenarios
    ensures r.Success? && r.value.Some? ==>
              r.value.value.strategy == StrategyOf(strategyReply, decode) && |r.value.value.actions| == FailureScenarios
    ensures r.Success? && r.value.Some? ==> |agent.recoveryEvents| == Answered(trackLossReply) + Answered(lowConfidenceReply)
    ensures r.Success? && r.value.Some? && trackLossReply.Replied? ==>
              agent.recoveryEvents[0].frame == Int(50) && agent.recoveryEvents[0].failureType == "track_loss"
    ensures r.Success? && r.value.Some? && lowConfidenceReply.Replied? ==>
              agent.recoveryEvents[|agent.recoveryEvents| - 1].frame == Int(100) &&
              agent.recoveryEvents[|agent.recoveryEvents| - 1].failureType == "low_confidence"
    ensures r.Success? && r.value.Some? && strategyReply.Raised? ==>
              forall k :: 0 <= k < |agent.recoveryEvents| ==> agent.recoveryEvents[k].toolsUsed == [Null, Null]
  {
    agent := NewState(key);
    var images := FindTestImages(datasetExists, allImages, MaxImages).value;
    if images == [] {
      r := Success(None);
      return;
    }
    var a0 := agent;
    var scenes;
    agent, scenes := AnalyzeImages(agent, images, reply, decode);
    var strategy, actions;
    agent, strategy := SelectAfterScenes(a0, agent, scenes[|scenes| - 1].analysis, strategyReply, decode);
    if !ReasoningPrints(strategy) {
      r := Failure("TypeError");
      return;
    }
    agent, actions := HandleScenarios(agent, trackLossReply, lowConfidenceReply, decode);
    r := Success(Some(ComprehensiveReport(scenes, strategy, actions, |scenes| + 1 + FailureScenarios)));
  }
}
