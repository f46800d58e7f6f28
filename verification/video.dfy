/**
 * `run_video_tracking_test` (src/test_video_tracking.py): evenly spaced frame
 * indices over the video, extraction of those frames (which may fail frame by
 * frame), one scene analysis per extracted frame, and a strategy from the
 * last analysis.
 */
module VideoTracking {

  import opened Wrappers
  import opened Json
  import opened ResponseParser
  import opened Agent
  import opened Sampling
  import opened FrameRuns

  // ---------------------------------------------------------------------------
  // Target frames
  // ---------------------------------------------------------------------------

  /** Five minutes at 25 frames per second. */
  const DefaultTotalFrames := 7500

  /** `video_info['total_frames'] or 7500`: a reported count of 0 falls back to the default. */
  function TotalFrames(reported: int): (t: int)
    ensures t != 0
    ensures reported != 0 ==> t == reported
  {
    if reported == 0 then DefaultTotalFrames else reported
  }

  /** Python's `a // b`: the quotient rounded towards negative infinity. */
  function FloorDiv(a: int, b: int): (q: int)
    requires b != 0
    ensures b > 0 ==> q * b <= a < q * b + b
    ensures b < 0 ==> q * b + b < a <= q * b
  {
    if b > 0 then a / b else (-a) / (-b)
  }

  /** `max(1, total_frames // num_frames)`: at least 1; `num_frames == 0` raises `ZeroDivisionError`. */
  function FrameStep(total: int, n: int): (r: Result<int, string>)
    ensures r.Failure? <==> n == 0
    ensures r.Success? ==> r.value >= 1
    ensures r.Success? && n > 0 && total >= n ==> r.value * n <= total < r.value * n + n
  {
    if n == 0 then Failure("ZeroDivisionError")
    else
      var q := FloorDiv(total, n);
      Success(if q >= 1 then q else 1)
  }

  /** `[i * frame_step for i in range(num_frames)]`. */
  function TargetFrames(total: int, n: int): (r: Result<seq<int>, string>)
    ensures r.Failure? <==> n == 0
    ensures n < 0 ==> r == Success([])
    ensures n > 0 ==> r.Success? && |r.value| == n && r.value[0] == 0
    ensures r.Success? ==> forall i :: 0 <= i < |r.value| ==> r.value[i] == i * FrameStep(total, n).value
    ensures r.Success? ==> forall i, j :: 0 <= i < j < |r.value| ==> r.value[i] < r.value[j]
    ensures 0 < n <= total ==> forall i :: 0 <= i < |r.value| ==> 0 <= r.value[i] < total
  {
    match FrameStep(total, n)
    case Failure(e) => Failure(e)
    case Success(step) =>
      var count := if n > 0 then n else 0;
      var r := seq(count, i => i * step);
      TargetFacts(total, n, step, r);
      Success(r)
  }

  /** Multiples of a positive step are strictly increasing, and stay below the total when `n` fits in it. */
  lemma TargetFacts(total: int, n: int, step: int, r: seq<int>)
    requires n != 0 && FrameStep(total, n) == Success(step)
    requires |r| == (if n > 0 then n else 0) && forall i :: 0 <= i < |r| ==> r[i] == i * step
    ensures forall i, j :: 0 <= i < j < |r| ==> r[i] < r[j]
    ensures 0 < n <= total ==> forall i :: 0 <= i < |r| ==> 0 <= r[i] < total
  {
    forall i, j | 0 <= i < j < |r| ensures r[i] < r[j] {
      StepMonotone(i, j, step);
    }
    if 0 < n <= total {
      forall i | 0 <= i < |r| ensures 0 <= r[i] < total {
        EvenPositionBound(total, n, i);
      }
    }
  }

  /** With no metadata and the default five frames, the targets are 1500 frames apart. */
  lemma DefaultTargets()
    ensures TargetFrames(TotalFrames(0), 5) == Success([0, 1500, 3000, 4500, 6000])
  {
    assert TotalFrames(0) == 7500;
    assert FrameStep(7500, 5).value == 1500;
    var r := TargetFrames(7500, 5).value;
    assert |r| == 5;
    assert r[0] == 0 && r[1] == 1500 && r[2] == 3000 && r[3] == 4500 && r[4] == 6000;
    assert r == [0, 1500, 3000, 4500, 6000];
  }

  // ---------------------------------------------------------------------------
  // Extraction
  // ---------------------------------------------------------------------------

  /**
   * `extract_frames`: each requested index is extracted in turn; the indices
   * whose extraction succeeded are returned, in request order.
   */
  method ExtractFrames(targets: seq<int>, ok: int -> bool) returns (extracted: seq<int>)
    ensures extracted == Filter(targets, ok)
    ensures Subsequence(extracted, targets)
    ensures forall t :: t in extracted <==> t in targets && ok(t)
  {
    extracted := [];
    var i := 0;
    while i < |targets|
      invariant 0 <= i <= |targets|
      invariant extracted == Filter(targets[..i], ok)
    {
      FilterStep(targets, i, ok);
      if ok(targets[i]) {
        extracted := extracted + [targets[i]];
      }
      i := i + 1;
    }
    assert targets[..|targets|] == targets;
    FilterSubsequence(targets, ok);
    FilterMembers(targets, ok);
  }

  // ---------------------------------------------------------------------------
  // Frame labels
  // ---------------------------------------------------------------------------

  /**
   * The label the loop gives the `i`-th extracted frame as written: the
   * `i`-th target index, whether or not that target was the one extracted.
   */
  function LabelsAsWritten(targets: seq<int>, extracted: seq<int>): (r: seq<int>)
    requires |extracted| <= |targets|
    ensures |r| == |extracted|
    ensures forall i :: 0 <= i < |r| ==> r[i] == targets[i]
  {
    targets[..|extracted|]
  }

  /** When every extraction succeeds the labels as written are the extracted indices. */
  lemma {:induction false} LabelsRightWhenAllExtract(targets: seq<int>, ok: int -> bool)
    requires forall i :: 0 <= i < |targets| ==> ok(targets[i])
    ensures LabelsAsWritten(targets, Filter(targets, ok)) == Filter(targets, ok)
  {
    FilterKeepsAll(targets, ok);
    assert targets[..|targets|] == targets;
  }

  /** A failed first extraction shifts every label: frame 1500 is reported as frame 0. */
  lemma FailedExtractionShiftsLabels()
    ensures Filter([0, 1500], (t: int) => t != 0) == [1500]
    ensures LabelsAsWritten([0, 1500], [1500]) == [0]
  {
    assert [0, 1500][..1] == [0];
    assert [0, 1500][..1][..0] == [];
  }

  // ---------------------------------------------------------------------------
  // The run
  // ---------------------------------------------------------------------------

  /** One analysed frame, labelled with its own index; the timestamp and timing are not kept. */
  datatype FrameResult = FrameResult(frame: int, analysis: Obj)

  /**
   * The summary after the loop can print an analysis: `visibility_score`
   * (default 5) and `instrument_count` (default 0) are summed, the
   * `estimated_phase` (default `unknown`) goes into a set, and the
   * `scene_challenges` are collected and put into a set. Anything else
   * raises `TypeError`.
   */
  predicate SummaryPrints(analysis: Obj) {
    && AsNumber(Get(analysis, "visibility_score", Int(5))).Some?
    && AsNumber(Get(analysis, "instrument_count", Int(0))).Some?
    && Hashable(Get(analysis, "estimated_phase", Str("unknown")))
    && ChallengesCountable(analysis)
  }

  /** Only a decoded reply can break the summary: the fallback dictionaries always print. */
  lemma FallbackAnalysisPrints(reply: Reply, decode: Decoder)
    requires Decoded(reply, decode).None?
    ensures SummaryPrints(SceneOf(reply, decode))
  {
    if reply.Raised? {
      FallbackPrints(SceneError(reply.message));
    } else {
      FallbackPrints(SceneDefault(reply.text));
    }
  }

  /** A dictionary with a numeric visibility, no count, a string phase and no challenges prints. */
  lemma FallbackPrints(analysis: Obj)
    requires "instrument_count" !in analysis
    requires "visibility_score" in analysis && analysis["visibility_score"].Int?
    requires "estimated_phase" in analysis && analysis["estimated_phase"].Str?
    requires "scene_challenges" in analysis && analysis["scene_challenges"] == Array([])
    ensures SummaryPrints(analysis)
  {
  }

  /** A visibility given as text, or as `null`, cannot be summed. */
  lemma TextVisibilityBreaksSummary()
    ensures !SummaryPrints(map["visibility_score" := Str("7/10")])
    ensures !SummaryPrints(map["visibility_score" := Null])
    ensures !SummaryPrints(map["scene_challenges" := Int(5)])
    ensures SummaryPrints(map["visibility_score" := Int(7), "scene_challenges" := Array([Str("smoke")])])
  {
    assert !CountableItems(Int(5));
    assert Hashable([Str("smoke")][0]);
  }

  /** The results' analyses print exactly when the analyses of the extracted frames do. */
  lemma ResultsCarryAnalyses(kept: seq<int>, results: seq<FrameResult>, reply: int -> Reply, decode: Decoder)
    requires Agrees(kept, results, Record, reply, decode)
    ensures (forall k :: 0 <= k < |results| ==> SummaryPrints(results[k].analysis))
            <==> (forall t :: t in kept ==> SummaryPrints(SceneOf(reply(t), decode)))
  {
    assert forall k :: 0 <= k < |results| ==> results[k].analysis == SceneOf(reply(kept[k]), decode);
    if forall k :: 0 <= k < |results| ==> SummaryPrints(results[k].analysis) {
      forall t | t in kept ensures SummaryPrints(SceneOf(reply(t), decode)) {
        var k :| 0 <= k < |kept| && kept[k] == t;
      }
    }
  }

  /** The saved report, without the video info, timings and the averaged statistics. */
  datatype VideoReport = VideoReport(results: seq<FrameResult>, strategy: Obj, totalCalls: nat)

  /** The analysis of a frame as the loop records it; it never raises. */
  function Record(frame: int, analysis: Obj): (r: Result<FrameResult, string>)
    ensures r == Success(FrameResult(frame, analysis))
  {
    Success(FrameResult(frame, analysis))
  }

  /**
   * `run_video_tracking_test` with each result labelled by the frame it
   * analyses. Nothing is reported when the video is missing or no frame
   * extracts; otherwise every extracted frame is analysed in order, the
   * strategy comes from the last analysis, and the call count is the number of
   * frames plus one. The run raises when the strategy's reasoning cannot be
   * sliced or the summary cannot print some analysis.
   */
  method RunVideoTracking(key: string, present: bool, reportedTotal: int, n: int, ok: int -> bool,
                          reply: int -> Reply, framePath: int -> string, strategyReply: Reply, decode: Decoder)
    returns (agent: Option<State>, r: Result<Option<VideoReport>, string>)
    requires key != ""
    ensures !present ==> agent.None? && r == Success(None)
    ensures present ==> agent.Some? && agent.value.apiKey == key && agent.value.toolSwitches == []
    ensures present && n == 0 ==> r.Failure?
    ensures present && n != 0 ==>
              (r.Failure? <==>
                 && Filter(TargetFrames(TotalFrames(reportedTotal), n).value, ok) != []
                 && !(&& ReasoningPrints(StrategyOf(strategyReply, decode))
                      && forall t :: t in Filter(TargetFrames(TotalFrames(reportedTotal), n).value, ok) ==>
                                       SummaryPrints(SceneOf(reply(t), decode))))
    ensures r.Success? && r.value.None? && present ==> Filter(TargetFrames(TotalFrames(reportedTotal), n).value, ok) == []
    ensures r.Success? && r.value.Some? ==>
              && present && n != 0
              && Agrees(Filter(TargetFrames(TotalFrames(reportedTotal), n).value, ok), r.value.value.results,
                        Record, reply, decode)
              && |r.value.value.results| > 0
              && r.value.value.totalCalls == |r.value.value.results| + 1
              && r.value.value.strategy == StrategyOf(strategyReply, decode)
  {
    agent := None;
    if !present {
      r := Success(None);
      return;
    }
    var a := NewState(key);
    agent := Some(a);
    var targets := TargetFrames(TotalFrames(reportedTotal), n);
    if targets.Failure? {
      r := Failure(targets.error);
      return;
    }
    var extracted := ExtractFrames(targets.value, ok);
    if extracted == [] {
      r := Success(None);
      return;
    }
    var a', analysed := AnalyzeFrames(a, targets.value, ok, Record, reply, framePath, decode);
    assert analysed.Success?;
    var results := analysed.value;
    var last := results[|results| - 1].analysis;
    FreshSelectionNoSwitch(a, a', last, strategyReply, decode);
    var selected := SelectStrategy(a', last, strategyReply, decode);
    agent := Some(selected.0);
    ResultsCarryAnalyses(Filter(targets.value, ok), results, reply, decode);
    if !ReasoningPrints(selected.1) || exists k :: 0 <= k < |results| && !SummaryPrints(results[k].analysis) {
      r := Failure("TypeError");
      return;
    }
    r := Success(Some(VideoReport(results, selected.1, |results| + 1)));
  }
}
