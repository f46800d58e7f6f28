/**
 * `run_sampled_analysis` (src/test_sampled_full_analysis.py): every
 * `sample_rate`-th annotated frame is analysed, resuming from the comparisons
 * a previous run saved, saving after every tenth result, and compared with
 * the ground truth of exactly that frame.
 */
module SampledAnalysis {

  import opened Wrappers
  import opened Json
  import opened ResponseParser
  import opened Agent
  import opened Sampling
  import opened GroundTruth
  import opened FrameRuns
  import opened ThoroughAnalysis

  // ---------------------------------------------------------------------------
  // Frame selection and resumption
  // ---------------------------------------------------------------------------

  /**
   * `sorted(frame numbers)[::sample_rate]`: a rate of 0 raises `ValueError`;
   * a positive rate keeps the order and picks among the annotated frames.
   */
  function SampledFrames(frames: Annotations, rate: int): (r: Result<seq<int>, string>)
    ensures r.Failure? <==> rate == 0
    ensures r.Success? ==> |r.value| == CeilDiv(|frames|, if rate > 0 then rate else -rate)
    ensures rate > 0 ==> Ascending(r.value)
    ensures rate > 0 ==> forall i :: 0 <= i < |r.value| ==> r.value[i] in FrameNumbers(frames)
  {
    var sorted := Sort(FrameNumbers(frames));
    SortMembers(FrameNumbers(frames));
    StrideFacts(sorted, rate);
    Stride(sorted, rate)
  }

  /** A forward stride of an ascending list is ascending and picks among the list's elements. */
  lemma StrideFacts(xs: seq<int>, step: int)
    requires Ascending(xs)
    ensures step > 0 ==> Ascending(Stride(xs, step).value)
    ensures step > 0 ==> forall i :: 0 <= i < |Stride(xs, step).value| ==> Stride(xs, step).value[i] in xs
  {
    if step > 0 {
      StrideKeepsOrder(xs, step);
    }
  }

  /** One saved comparison of the sampled analysis, without the processing time. */
  datatype SampledComparison = SampledComparison(
    frame: int,
    timestamp: real,
    groundTruth: GtFrame,
    analysis: Obj,
    instMatch: bool)

  /** `{r["frame"] for r in existing_results}`. */
  function Completed(existing: seq<SampledComparison>): (r: set<int>)
    ensures forall f :: f in r <==> exists k :: 0 <= k < |existing| && existing[k].frame == f
  {
    set k | 0 <= k < |existing| :: existing[k].frame
  }

  /** `[f for f in sampled_frames if f not in completed_frames]`. */
  function Remaining(sampled: seq<int>, completed: set<int>): (r: seq<int>)
    ensures forall f :: f in r <==> f in sampled && f !in completed
  {
    FilterMembers(sampled, f => f !in completed);
    Filter(sampled, f => f !in completed)
  }

  /** The remaining frames keep their order in the sample, so an ascending sample stays ascending. */
  lemma RemainingKeepsOrder(sampled: seq<int>, completed: set<int>)
    requires Ascending(sampled)
    ensures Subsequence(Remaining(sampled, completed), sampled)
    ensures Ascending(Remaining(sampled, completed))
  {
    FilterSubsequence(sampled, f => f !in completed);
    SubsequenceAscending(Remaining(sampled, completed), sampled);
  }

  /** With nothing saved, every sampled frame remains. */
  lemma NothingSavedAllRemain(sampled: seq<int>)
    ensures Remaining(sampled, Completed([])) == sampled
  {
    FilterKeepsAll(sampled, f => f !in Completed([]));
  }

  // ---------------------------------------------------------------------------
  // One comparison
  // ---------------------------------------------------------------------------

  /**
   * The comparison of an analysed frame with its exact ground truth; it raises
   * when the analysis's instrument count is not a number.
   */
  function CompareSampled(frames: Annotations, frame: int, analysis: Obj): (r: Result<SampledComparison, string>)
    ensures r.Failure? <==> InstrumentCountOf(analysis).None?
    ensures r.Success? ==> r.value.frame == frame && r.value.analysis == analysis
    ensures r.Success? ==> r.value.groundTruth == GtExact(frames, frame)
    ensures r.Success? ==> r.value.timestamp * 25.0 == frame as real
    ensures r.Success? ==> r.value.instMatch == InstrumentMatch(GtExact(frames, frame).instrumentCount, analysis).value
  {
    var gt := GtExact(frames, frame);
    match InstrumentMatch(gt.instrumentCount, analysis)
    case Failure(e) => Failure(e)
    case Success(m) => Success(SampledComparison(frame, frame as real / 25.0, gt, analysis, m))
  }

  // ---------------------------------------------------------------------------
  // Saving
  // ---------------------------------------------------------------------------

  /** The number of comparisons whose instrument match holds. */
  function InstMatches(results: seq<SampledComparison>): (n: nat)
    ensures n <= |results|
    ensures n == |results| <==> forall i :: 0 <= i < |results| ==> results[i].instMatch
    ensures n == 0 <==> forall i :: 0 <= i < |results| ==> !results[i].instMatch
  {
    if |results| == 0 then 0
    else
      var init := results[..|results| - 1];
      assert forall i :: 0 <= i < |init| ==> results[i] == init[i];
      InstMatches(init) + (if results[|results| - 1].instMatch then 1 else 0)
  }

  /** The `instrument_accuracy` field: the literal `"0%"` with no results, a percentage otherwise. */
  datatype Accuracy = ZeroPercent | Percentage(value: real)

  /** The file `save_results` writes, without the video name. */
  datatype Saved = Saved(totalSampled: nat, analyzed: nat, accuracy: Accuracy, comparisons: seq<SampledComparison>)

  /** `save_results`: the accuracy is guarded against an empty result list. */
  function SaveResults(results: seq<SampledComparison>, totalSampled: nat): (s: Saved)
    ensures s.analyzed == |results| && s.comparisons == results && s.totalSampled == totalSampled
    ensures s.accuracy == ZeroPercent <==> results == []
    ensures results != [] ==> Success(s.accuracy.value) == PercentAsWritten(InstMatches(results), |results|)
    ensures s.accuracy.Percentage? ==> 0.0 <= s.accuracy.value <= 100.0
  {
    var n := InstMatches(results);
    Saved(totalSampled, |results|, if |results| > 0 then Percentage(100.0 * n as real / |results| as real) else ZeroPercent, results)
  }

  /** The result counts `lo < k <= hi` at which `total_done % 10 == 0` triggers a save, in order. */
  function SavePoints(lo: nat, hi: nat): (r: seq<nat>)
    ensures forall k :: k in r <==> lo < k <= hi && k % 10 == 0
    ensures forall i, j :: 0 <= i < j < |r| ==> r[i] < r[j]
    ensures forall i :: 0 <= i < |r| ==> r[i] <= hi
  {
    if hi <= lo then []
    else SavePoints(lo, hi - 1) + (if hi % 10 == 0 then [hi] else [])
  }

  /** A first run of fewer than ten results saves only at the end. */
  lemma FewResultsSaveOnlyAtEnd(hi: nat)
    requires hi < 10
    ensures SavePoints(0, hi) == []
  {
    if SavePoints(0, hi) != [] {
      assert SavePoints(0, hi)[0] in SavePoints(0, hi);
    }
  }

  // ---------------------------------------------------------------------------
  // The run
  // ---------------------------------------------------------------------------

  /**
   * How the run ends: the video or annotations are missing, every sampled
   * frame was already analysed, or frames were analysed — with the result
   * counts at which progress was saved and the final save.
   */
  datatype SampledOutcome =
    | Missing
    | AllDone
    | Ran(results: seq<SampledComparison>, savePoints: seq<nat>, saved: Saved)

  /** The frames the run still has to analyse. */
  function ToDo(frames: Annotations, rate: int, existing: seq<SampledComparison>): seq<int>
    requires rate != 0
  {
    Remaining(SampledFrames(frames, rate).value, Completed(existing))
  }

  /**
   * `print_summary` can tally an analysis: its `estimated_phase` (default
   * `unknown`) is a `Counter` key, and so is each of its `scene_challenges`.
   */
  predicate TallyPrints(analysis: Obj) {
    Hashable(Get(analysis, "estimated_phase", Str("unknown"))) && ChallengesCountable(analysis)
  }

  /** Only a decoded reply can break the tally: the fallback dictionaries always print. */
  lemma FallbackTallyPrints(reply: Reply, decode: Decoder)
    requires Decoded(reply, decode).None?
    ensures TallyPrints(SceneOf(reply, decode))
  {
  }

  /** A list-valued phase, or challenges given as a number, break the tally. */
  lemma UntypedAnalysesBreakTally()
    ensures !TallyPrints(map["estimated_phase" := Array([Str("dissection")])])
    ensures !TallyPrints(map["scene_challenges" := Int(5)])
    ensures TallyPrints(map["estimated_phase" := Null, "scene_challenges" := Object(map["smoke" := Bool(true)])])
  {
    assert !CountableItems(Int(5));
  }

  /** The new results' analyses tally exactly when the analyses of the compared frames do. */
  lemma SampledResultsCarryAnalyses(kept: seq<int>, added: seq<SampledComparison>, frames: Annotations,
                                    reply: int -> Reply, decode: Decoder)
    requires Agrees(kept, added, (t, analysis) => CompareSampled(frames, t, analysis), reply, decode)
    ensures (forall k :: 0 <= k < |added| ==> TallyPrints(added[k].analysis))
            <==> (forall t :: t in kept ==> TallyPrints(SceneOf(reply(t), decode)))
  {
    assert forall k :: 0 <= k < |added| ==> added[k].analysis == SceneOf(reply(kept[k]), decode);
    if forall k :: 0 <= k < |added| ==> TallyPrints(added[k].analysis) {
      forall t | t in kept ensures TallyPrints(SceneOf(reply(t), decode)) {
        var k :| 0 <= k < |kept| && kept[k] == t;
      }
    }
  }

  /**
   * `run_sampled_analysis` with the summary's percentage guarded as
   * `save_results` guards it. The agent is created only when a frame
   * remains. The run ends with an outcome exactly when every compared
   * frame's count is a number and every result, saved earlier or new, can
   * be tallied by the summary.
   */
  method RunSampled(key: string, present: bool, frames: Annotations, rate: int, existing: seq<SampledComparison>,
                    extracted: int -> bool, reply: int -> Reply, framePath: int -> string, decode: Decoder)
    returns (agent: Option<State>, r: Result<SampledOutcome, string>)
    requires key != ""
    ensures !present ==> r == Success(Missing) && agent.None?
    ensures present && rate == 0 ==> r.Failure?
    ensures present && rate != 0 && ToDo(frames, rate, existing) == [] ==> r == Success(AllDone) && agent.None?
    ensures r.Success? && r.value.Ran? ==> rate != 0 && ToDo(frames, rate, existing) != []
    ensures present && rate != 0 && ToDo(frames, rate, existing) != [] ==>
              (r.Success? <==>
                 && (forall t :: t in Filter(ToDo(frames, rate, existing), extracted) ==>
                                   CompareSampled(frames, t, SceneOf(reply(t), decode)).Success? && TallyPrints(SceneOf(reply(t), decode)))
                 && (forall k :: 0 <= k < |existing| ==> TallyPrints(existing[k].analysis)))
    ensures r.Success? && r.value.Ran? ==> agent.Some? && agent.value.apiKey == key && agent.value.toolSwitches == []
    ensures r.Success? && r.value.Ran? ==>
              |existing| <= |r.value.results| && r.value.results[..|existing|] == existing
    ensures r.Success? && r.value.Ran? ==>
              Agrees(Filter(ToDo(frames, rate, existing), extracted), r.value.results[|existing|..],
                     (t, analysis) => CompareSampled(frames, t, analysis), reply, decode)
    ensures r.Success? && r.value.Ran? ==>
              forall k :: |existing| <= k < |r.value.results| ==> r.value.results[k].frame !in Completed(existing)
    ensures r.Success? && r.value.Ran? ==> r.value.savePoints == SavePoints(|existing|, |r.value.results|)
    ensures r.Success? && r.value.Ran? ==> r.value.saved == SaveResults(r.value.results, |SampledFrames(frames, rate).value|)
  {
    agent := None;
    if !present {
      r := Success(Missing);
      return;
    }
    var sampled := SampledFrames(frames, rate);
    if sampled.Failure? {
      r := Failure(sampled.error);
      return;
    }
    var todo := Remaining(sampled.value, Completed(existing));
    if todo == [] {
      r := Success(AllDone);
      return;
    }
    var a, compared := AnalyzeFrames(NewState(key), todo, extracted, (t, analysis) => CompareSampled(frames, t, analysis),
                                     reply, framePath, decode);
    agent := Some(a);
    if compared.Failure? {
      r := Failure(compared.error);
      return;
    }
    var added := compared.value;
    NewFramesNotCompleted(todo, Completed(existing), extracted, added, frames, reply, decode);
    var results := existing + added;
    assert results[..|existing|] == existing && results[|existing|..] == added;
    SampledResultsCarryAnalyses(Filter(todo, extracted), added, frames, reply, decode);
    var tallies := SummaryTallies(existing, added);
    if !tallies {
      r := Failure("TypeError");
      return;
    }
    r := Success(Ran(results, SavePoints(|existing|, |results|), SaveResults(results, |sampled.value|)));
  }

  /** Whether `print_summary` can tally every result, the saved ones followed by the new ones. */
  method SummaryTallies(existing: seq<SampledComparison>, added: seq<SampledComparison>) returns (ok: bool)
    ensures ok <==> (forall k :: 0 <= k < |existing| ==> TallyPrints(existing[k].analysis))
                    && (forall k :: 0 <= k < |added| ==> TallyPrints(added[k].analysis))
  {
    var results := existing + added;
    ok := forall k :: 0 <= k < |results| ==> TallyPrints(results[k].analysis);
    if ok {
      forall k | 0 <= k < |existing| ensures TallyPrints(existing[k].analysis) {
        assert results[k] == existing[k];
      }
      forall k | 0 <= k < |added| ensures TallyPrints(added[k].analysis) {
        assert results[|existing| + k] == added[k];
      }
    } else {
      var k :| 0 <= k < |results| && !TallyPrints(results[k].analysis);
      if k < |existing| {
        assert results[k] == existing[k];
      } else {
        assert results[k] == added[k - |existing|];
      }
    }
  }

  /** A comparison made in this run is of a frame the saved progress did not hold. */
  lemma NewFramesNotCompleted(todo: seq<int>, completed: set<int>, extracted: int -> bool, added: seq<SampledComparison>,
                              frames: Annotations, reply: int -> Reply, decode: Decoder)
    requires forall f :: f in todo ==> f !in completed
    requires Agrees(Filter(todo, extracted), added, (t, analysis) => CompareSampled(frames, t, analysis), reply, decode)
    ensures forall k :: 0 <= k < |added| ==> added[k].frame !in completed
  {
    var kept := Filter(todo, extracted);
    FilterMembers(todo, extracted);
    forall k | 0 <= k < |added| ensures added[k].frame !in completed {
      assert CompareSampled(frames, kept[k], SceneOf(reply(kept[k]), decode)) == Success(added[k]);
      assert kept[k] in kept;
    }
  }

  // ---------------------------------------------------------------------------
  // The printed summary
  // ---------------------------------------------------------------------------

  /**
   * The accuracy line of `print_summary` as written: it divides by the
   * number of results without a guard.
   */
  function PrintedAccuracyAsWritten(results: seq<SampledComparison>): (r: Result<real, string>)
    ensures r.Failure? <==> results == []
    ensures r.Success? ==> SaveResults(results, 0).accuracy == Percentage(r.value)
  {
    PercentAsWritten(InstMatches(results), |results|)
  }

  /**
   * A first run in which no sampled frame extracts reaches the summary with
   * no results, and the accuracy line raises `ZeroDivisionError`; the saved
   * file reports `"0%"` for the same results.
   */
  lemma NoExtractedFrameBreaksSummary()
    ensures SampledFrames([FrameAnnotations(0, [])], 10) == Success([0])
    ensures ToDo([FrameAnnotations(0, [])], 10, []) == [0]
    ensures Filter([0], (t: int) => false) == []
    ensures PrintedAccuracyAsWritten([]).Failure?
    ensures SaveResults([], 1).accuracy == ZeroPercent
  {
    var sorted := Sort(FrameNumbers([FrameAnnotations(0, [])]));
    assert FrameNumbers([FrameAnnotations(0, [])]) == [0];
    assert sorted == [0] by {
      assert multiset(sorted) == multiset{0};
      assert sorted[0] in multiset(sorted);
    }
    var picked := Stride(sorted, 10).value;
    assert CeilDiv(1, 10) == 1;
    assert |picked| == 1 && picked[0] == sorted[0];
    assert picked == [0];
    NothingSavedAllRemain([0]);
  }
}
