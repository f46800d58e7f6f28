/**
 * `run_thorough_analysis` (src/test_thorough_analysis.py): evenly spaced
 * frames of the annotated video are analysed one by one and compared with the
 * closest annotated frame: instrument count within one, and a loose substring
 * test on the phase name.
 */
module ThoroughAnalysis {

  import opened Wrappers
  import opened Json
  import opened ResponseParser
  import opened Agent
  import opened Sampling
  import opened GroundTruth
  import opened FrameRuns

  // ---------------------------------------------------------------------------
  // Frame selection
  // ---------------------------------------------------------------------------

  /**
   * `num_frames` frames evenly spaced over the sorted annotated frame
   * numbers, or all of them when there are fewer; `num_frames == 0` divides by
   * zero.
   */
  function TargetFrames(frames: Annotations, numFrames: int): (r: Result<seq<int>, string>)
    ensures r.Failure? <==> numFrames == 0
    ensures r.Success? ==> Ascending(r.value)
    ensures r.Success? ==> forall i :: 0 <= i < |r.value| ==> r.value[i] in FrameNumbers(frames)
    ensures 0 < numFrames <= |frames| ==> |r.value| == numFrames
    ensures numFrames > |frames| ==> r.Success? && |r.value| == |frames|
    ensures numFrames < 0 ==> r == Success([])
  {
    var sorted := Sort(FrameNumbers(frames));
    SortMembers(FrameNumbers(frames));
    EvenSampleFacts(sorted, numFrames);
    EvenSample(sorted, numFrames)
  }

  /** The evenly spaced pick of an ascending list is ascending and draws on the list's elements. */
  lemma EvenSampleFacts(xs: seq<int>, n: int)
    requires Ascending(xs)
    ensures n != 0 ==> Ascending(EvenSample(xs, n).value)
    ensures n != 0 ==> forall i :: 0 <= i < |EvenSample(xs, n).value| ==> EvenSample(xs, n).value[i] in xs
  {
    if n != 0 {
      EvenSampleKeepsOrder(xs, n);
      var r := EvenSample(xs, n).value;
      forall i | 0 <= i < |r| ensures r[i] in xs {
        if 0 < n <= |xs| {
          EvenPositionBound(|xs|, n, i);
        }
      }
    }
  }

  // ---------------------------------------------------------------------------
  // Phase match
  // ---------------------------------------------------------------------------

  /** `str.lower()` on one character, for ASCII letters. */
  function LowerChar(c: char): char {
    if 'A' <= c <= 'Z' then (c as int + 32) as char else c
  }

  function Lower(s: string): (r: string)
    ensures |r| == |s| && forall i :: 0 <= i < |s| ==> r[i] == LowerChar(s[i])
  {
    seq(|s|, i requires 0 <= i < |s| => LowerChar(s[i]))
  }

  /** `s.replace("_", " ")`. */
  function Spaced(s: string): (r: string)
    ensures |r| == |s| && forall i :: 0 <= i < |s| ==> r[i] == (if s[i] == '_' then ' ' else s[i])
  {
    seq(|s|, i requires 0 <= i < |s| => if s[i] == '_' then ' ' else s[i])
  }

  /** `needle` occurs in `hay` at position `i`. */
  predicate OccursAt(needle: string, hay: string, i: int) {
    0 <= i && i + |needle| <= |hay| && hay[i..i + |needle|] == needle
  }

  /** Python's `needle in hay` on strings. */
  function Contains(needle: string, hay: string): (r: bool)
    ensures r <==> exists i :: OccursAt(needle, hay, i)
    decreases |hay|
  {
    if |needle| > |hay| then false
    else if hay[..|needle|] == needle then
      assert OccursAt(needle, hay, 0);
      true
    else
      var tail := hay[1..];
      var r := Contains(needle, tail);
      assert r ==> exists i :: OccursAt(needle, hay, i) by {
        if r {
          var i :| OccursAt(needle, tail, i);
          assert hay[i + 1..i + 1 + |needle|] == tail[i..i + |needle|];
          assert OccursAt(needle, hay, i + 1);
        }
      }
      assert (exists i :: OccursAt(needle, hay, i)) ==> r by {
        if exists i :: OccursAt(needle, hay, i) {
          var i :| OccursAt(needle, hay, i);
          assert i != 0;
          assert tail[i - 1..i - 1 + |needle|] == hay[i..i + |needle|];
          assert OccursAt(needle, tail, i - 1);
        }
      }
      r
  }

  /** `estimated_phase` as text (missing reads as ""); a non-string has no `lower()` and raises. */
  function EstimatedPhase(analysis: Obj): Option<string> {
    match Get(analysis, "estimated_phase", Str(""))
    case Str(s) => Some(s)
    case _ => None
  }

  /**
   * The phase match: true when the ground truth has no phase; otherwise the
   * normalised ground-truth phase and the lower-cased estimate must contain
   * one another.
   */
  function PhaseMatch(gtPhase: Option<string>, analysis: Obj): (r: Result<bool, string>)
    ensures gtPhase.None? ==> r == Success(true)
    ensures gtPhase.Some? ==> (r.Failure? <==> EstimatedPhase(analysis).None?)
    ensures gtPhase.Some? && r.Success? ==>
              var g := Lower(Spaced(gtPhase.value));
              var e := Lower(EstimatedPhase(analysis).value);
              (r.value <==> (exists i :: OccursAt(g, e, i)) || (exists i :: OccursAt(e, g, i)))
  {
    match gtPhase
    case None => Success(true)
    case Some(phase) =>
      match EstimatedPhase(analysis)
      case None => Failure("AttributeError")
      case Some(estimate) =>
        var g := Lower(Spaced(phase));
        var e := Lower(estimate);
        Success(Contains(g, e) || Contains(e, g))
  }

  /** An estimate naming the phase, spaces for underscores and in any case, matches. */
  lemma PhaseNamedMatches(phase: string, analysis: Obj)
    requires EstimatedPhase(analysis).Some?
    requires Lower(EstimatedPhase(analysis).value) == Lower(Spaced(phase))
    ensures PhaseMatch(Some(phase), analysis) == Success(true)
  {
    var g := Lower(Spaced(phase));
    assert g[0..|g|] == g;
    assert OccursAt(g, g, 0);
  }

  /** An analysis without `estimated_phase` matches every ground-truth phase, since "" occurs in every string. */
  lemma MissingPhaseAlwaysMatches(phase: string, analysis: Obj)
    requires "estimated_phase" !in analysis
    ensures PhaseMatch(Some(phase), analysis) == Success(true)
  {
    assert OccursAt("", Lower(Spaced(phase)), 0);
  }

  // ---------------------------------------------------------------------------
  // Comparisons
  // ---------------------------------------------------------------------------

  /** One entry of `comparisons`, without the processing time; `timestamp` is the frame's second at 25 fps. */
  datatype Comparison = Comparison(
    frame: int,
    timestamp: real,
    groundTruth: Option<GtFrame>,
    analysis: Obj,
    instrumentMatch: bool,
    phaseMatch: bool)

  function GtCount(gt: Option<GtFrame>): nat {
    if gt.Some? then gt.value.instrumentCount else 0
  }

  function GtPhase(gt: Option<GtFrame>): Option<string> {
    if gt.Some? then gt.value.phase else None
  }

  /** The comparison of one analysed frame with its closest ground truth; raises when a match rule does. */
  function Compare(frames: Annotations, frame: int, analysis: Obj): (r: Result<Comparison, string>)
    ensures var gt := GtClosest(frames, frame);
            var im := InstrumentMatch(GtCount(gt), analysis);
            var pm := PhaseMatch(GtPhase(gt), analysis);
            && (r.Success? <==> im.Success? && pm.Success?)
            && (r.Success? ==> && r.value.frame == frame && r.value.groundTruth == gt && r.value.analysis == analysis
                               && r.value.instrumentMatch == im.value && r.value.phaseMatch == pm.value)
            && (r.Success? ==> r.value.timestamp * 25.0 == frame as real)
  {
    var gt := GtClosest(frames, frame);
    var im := InstrumentMatch(GtCount(gt), analysis);
    if im.Failure? then Failure(im.error)
    else
      var pm := PhaseMatch(GtPhase(gt), analysis);
      if pm.Failure? then Failure(pm.error)
      else Success(Comparison(frame, frame as real / 25.0, gt, analysis, im.value, pm.value))
  }

  // ---------------------------------------------------------------------------
  // Accuracy and the report
  // ---------------------------------------------------------------------------

  /** The number of comparisons whose instrument (or phase) match holds. */
  function MatchCount(cs: seq<Comparison>, phase: bool): (n: nat)
    ensures n <= |cs|
    ensures n == |cs| <==> forall i :: 0 <= i < |cs| ==> (if phase then cs[i].phaseMatch else cs[i].instrumentMatch)
  {
    if |cs| == 0 then 0
    else
      var init := cs[..|cs| - 1];
      assert forall i :: 0 <= i < |init| ==> cs[i] == init[i];
      MatchCount(init, phase) + (if (if phase then cs[|cs| - 1].phaseMatch else cs[|cs| - 1].instrumentMatch) then 1 else 0)
  }

  /** `100 * matches / total` as the report computes it: no result (`ZeroDivisionError`) when nothing was compared. */
  function PercentAsWritten(matches: nat, total: nat): (r: Result<real, string>)
    requires matches <= total
    ensures r.Failure? <==> total == 0
    ensures r.Success? ==> 0.0 <= r.value <= 100.0
  {
    if total == 0 then Failure("ZeroDivisionError")
    else Success(100.0 * matches as real / total as real)
  }

  /** The percentage guarded as `save_results` guards it: 0 when nothing was compared. */
  function Percent(matches: nat, total: nat): (r: real)
    requires matches <= total
    ensures total == 0 ==> r == 0.0
    ensures total > 0 ==> PercentAsWritten(matches, total) == Success(r)
    ensures 0.0 <= r <= 100.0
    ensures r == 100.0 <==> total > 0 && matches == total
  {
    if total == 0 then 0.0
    else
      FullIffAll(matches, total);
      100.0 * matches as real / total as real
  }

  lemma FullIffAll(matches: nat, total: nat)
    requires 0 < total && matches <= total
    ensures 100.0 * matches as real / total as real == 100.0 <==> matches == total
  {
    var q := 100.0 * matches as real / total as real;
    assert q * total as real == 100.0 * matches as real;
  }

  /** Without annotations the run compares nothing, and the report's percentage raises. */
  lemma EmptyAnnotationsCannotReport(extracted: int -> bool)
    ensures TargetFrames([], 15) == Success([])
    ensures Filter([], extracted) == []
    ensures PercentAsWritten(MatchCount([], false), 0).Failure?
  {
  }

  /** The saved report, without timings, costs and the video name. */
  datatype ThoroughReport = ThoroughReport(
    groundTruth: GtStats,
    comparisons: seq<Comparison>,
    instrumentAccuracy: real,
    phaseAccuracy: real,
    strategy: Obj,
    totalCalls: nat)

  /**
   * The detailed table and the challenge tally can print an analysis: its
   * `estimated_phase` (default `?`) is sliced and padded, which only a string
   * survives, and its `scene_challenges` are collected into a `Counter`.
   */
  predicate RowPrints(analysis: Obj) {
    Get(analysis, "estimated_phase", Str("?")).Str? && ChallengesCountable(analysis)
  }

  /** Only a decoded reply can break the table: the fallback dictionaries always print. */
  lemma FallbackRowPrints(reply: Reply, decode: Decoder)
    requires Decoded(reply, decode).None?
    ensures RowPrints(SceneOf(reply, decode))
  {
  }

  /** A phase given as `null` or a number, or challenges given as a number, break the table. */
  lemma UntypedRowsBreakTable()
    ensures !RowPrints(map["estimated_phase" := Null])
    ensures !RowPrints(map["estimated_phase" := Int(3)])
    ensures !RowPrints(map["scene_challenges" := Int(5)])
    ensures !RowPrints(map["scene_challenges" := Array([Object(map[])])])
    ensures RowPrints(map["estimated_phase" := Str("dissection"), "scene_challenges" := Str("smoke")])
  {
    assert !Hashable([Object(map[])][0]);
  }

  /**
   * The end of `run_thorough_analysis`: the table and the challenge tally,
   * then a strategy from the last analysis when a frame was compared, whose
   * reasoning is printed, the guarded percentages, and the call count (frames
   * plus one for the strategy). Each printing step raises `TypeError` on a
   * value it cannot handle.
   */
  method Report(a0: State, a: State, stats: GtStats, cs: seq<Comparison>, strategyReply: Reply, decode: Decoder)
    returns (a': State, r: Result<ThoroughReport, string>)
    requires Fresh(a0) && ScenesOnly(a0, a)
    ensures r.Failure? <==>
              || (exists k :: 0 <= k < |cs| && !RowPrints(cs[k].analysis))
              || (cs != [] && !ReasoningPrints(StrategyOf(strategyReply, decode)))
    ensures r.Success? ==> r.value.comparisons == cs && r.value.groundTruth == stats
    ensures r.Success? ==> r.value.totalCalls == |cs| + 1
    ensures r.Success? ==> 0.0 <= r.value.instrumentAccuracy <= 100.0 && 0.0 <= r.value.phaseAccuracy <= 100.0
    ensures r.Success? && cs == [] ==> r.value.strategy == map[] && r.value.instrumentAccuracy == 0.0 && a' == a
    ensures r.Success? && cs != [] ==> r.value.strategy == StrategyOf(strategyReply, decode)
    ensures a'.apiKey == a0.apiKey && a'.toolSwitches == [] && a'.recoveryEvents == [] && a'.checkpoints == []
  {
    a' := a;
    if exists k :: 0 <= k < |cs| && !RowPrints(cs[k].analysis) {
      r := Failure("TypeError");
      return;
    }
    var strategy: Obj := map[];
    if |cs| > 0 {
      FreshSelectionNoSwitch(a0, a, cs[|cs| - 1].analysis, strategyReply, decode);
      var selected := SelectStrategy(a, cs[|cs| - 1].analysis, strategyReply, decode);
      a', strategy := selected.0, selected.1;
      if !ReasoningPrints(strategy) {
        r := Failure("TypeError");
        return;
      }
    }
    var im, pm := MatchCount(cs, false), MatchCount(cs, true);
    r := Success(ThoroughReport(stats, cs, Percent(im, |cs|), Percent(pm, |cs|), strategy, |cs| + 1));
  }

  /** The frames a run compares: the extracted target frames, in order. */
  function ComparedFrames(frames: Annotations, numFrames: int, extracted: int -> bool): seq<int>
    requires numFrames != 0
  {
    Filter(TargetFrames(frames, numFrames).value, extracted)
  }

  /** The comparisons' analyses print exactly when the analyses of the compared frames do. */
  lemma ComparisonsCarryAnalyses(kept: seq<int>, cs: seq<Comparison>, frames: Annotations, reply: int -> Reply, decode: Decoder)
    requires Agrees(kept, cs, (t, analysis) => Compare(frames, t, analysis), reply, decode)
    ensures (forall k :: 0 <= k < |cs| ==> RowPrints(cs[k].analysis))
            <==> (forall t :: t in kept ==> RowPrints(SceneOf(reply(t), decode)))
  {
    assert forall k :: 0 <= k < |cs| ==> cs[k].analysis == SceneOf(reply(kept[k]), decode);
    if forall k :: 0 <= k < |cs| ==> RowPrints(cs[k].analysis) {
      forall t | t in kept ensures RowPrints(SceneOf(reply(t), decode)) {
        var k :| 0 <= k < |kept| && kept[k] == t;
      }
    }
  }

  /**
   * `run_thorough_analysis` with the percentages guarded: ground-truth
   * statistics, a fresh agent, and the comparisons of the extracted target
   * frames, in order. The run ends with a report exactly when every compared
   * frame's match rules and table row evaluate and, when a frame was
   * compared, the strategy's reasoning prints.
   */
  method RunThorough(key: string, frames: Annotations, numFrames: int, extracted: int -> bool,
                     reply: int -> Reply, framePath: int -> string, strategyReply: Reply, decode: Decoder)
    returns (agent: State, r: Result<ThoroughReport, string>)
    requires key != ""
    ensures numFrames == 0 ==> r.Failure?
    ensures numFrames != 0 ==>
              (r.Success? <==>
                 && (forall t :: t in ComparedFrames(frames, numFrames, extracted) ==>
                                   Compare(frames, t, SceneOf(reply(t), decode)).Success? && RowPrints(SceneOf(reply(t), decode)))
                 && (ComparedFrames(frames, numFrames, extracted) != [] ==> ReasoningPrints(StrategyOf(strategyReply, decode))))
    ensures r.Success? ==> Agrees(Filter(TargetFrames(frames, numFrames).value, extracted), r.value.comparisons,
                                  (t, analysis) => Compare(frames, t, analysis), reply, decode)
    ensures r.Success? ==> r.value.totalCalls == |r.value.comparisons| + 1
    ensures r.Success? ==> r.value.groundTruth.totalAnnotatedFrames == |frames|
    ensures r.Success? && r.value.comparisons == [] ==> r.value.strategy == map[] && r.value.instrumentAccuracy == 0.0
    ensures r.Success? && r.value.comparisons != [] ==> r.value.strategy == StrategyOf(strategyReply, decode)
    ensures agent.apiKey == key && agent.toolSwitches == [] && agent.recoveryEvents == [] && agent.checkpoints == []
  {
    var stats := AnalyzeGroundTruth(frames);
    agent := NewState(key);
    var targets := TargetFrames(frames, numFrames);
    if targets.Failure? {
      r := Failure(targets.error);
      return;
    }
    var a0 := agent;
    var compared;
    agent, compared := AnalyzeFrames(agent, targets.value, extracted, (t, analysis) => Compare(frames, t, analysis), reply, framePath, decode);
    if compared.Failure? {
      r := Failure(compared.error);
      return;
    }
    ComparisonsCarryAnalyses(Filter(targets.value, extracted), compared.value, frames, reply, decode);
    agent, r := Report(a0, agent, stats, compared.value, strategyReply, decode);
  }
}
