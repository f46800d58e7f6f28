/**
 * What the analysis scripts share when they drive an agent over frames: the
 * dictionary `analyze_scene` and `select_strategy` hand back for a reply
 * (which does not depend on the agent's state), the bookkeeping a run of
 * scene analyses leaves behind, and the instrument-count match.
 */
module FrameRuns {

  import opened Wrappers
  import opened Json
  import opened ResponseParser
  import opened Agent
  import opened Sampling

  /** The dictionary `analyze_scene` returns for a reply. */
  function SceneOf(reply: Reply, decode: Decoder): (r: Obj)
    ensures reply.Raised? ==> "error" in r && Get(r, "visibility_score", Null) == Int(5)
    ensures reply.Replied? && BraceSpan(reply.text).None? ==> Get(r, "visibility_score", Null) == Int(7)
    ensures forall a: State, path: string :: AnalyzeScene(a, path, reply, decode).1 == r
  {
    match reply
    case Raised(message) => SceneError(message)
    case Replied(text) => ParseSceneAnalysis(text, decode)
  }

  /** The strategy `select_strategy` returns for a reply. */
  function StrategyOf(reply: Reply, decode: Decoder): (r: Obj)
    ensures reply.Raised? ==> Get(r, "detector", Null) == DefaultDetector && Get(r, "tracker", Null) == DefaultTracker
    ensures forall a: State, scene: Obj :: SelectStrategy(a, scene, reply, decode).1 == r
  {
    match reply
    case Raised(message) => StrategyError(message)
    case Replied(text) => ParseStrategy(text, decode)
  }

  /** The dictionary a reply decodes to, when it carries a brace span that decodes. */
  function Decoded(reply: Reply, decode: Decoder): (r: Option<Obj>)
    ensures r.Some? ==> reply.Replied? && BraceSpan(reply.text).Some?
    ensures r.Some? ==> SceneOf(reply, decode) == r.value && StrategyOf(reply, decode) == r.value
    ensures r.None? && reply.Replied? ==>
              SceneOf(reply, decode) == SceneDefault(reply.text) && StrategyOf(reply, decode) == StrategyDefault
  {
    if reply.Replied? && BraceSpan(reply.text).Some? then decode(BraceSpan(reply.text).value) else None
  }

  /** `strategy.get('reasoning', 'N/A')[:k]`, as the scripts print a strategy, does not raise. */
  predicate ReasoningPrints(strategy: Obj) {
    Sliceable(Get(strategy, "reasoning", Str("N/A")))
  }

  /**
   * The printed reasoning raises exactly when the reply decoded to a
   * dictionary whose `reasoning` is neither a string nor a list: both
   * fallback dictionaries carry a string, and a missing key prints `N/A`.
   */
  lemma ReasoningPrintsUnlessDecoded(reply: Reply, decode: Decoder)
    ensures !ReasoningPrints(StrategyOf(reply, decode)) <==>
              Decoded(reply, decode).Some? && "reasoning" in Decoded(reply, decode).value
              && !Sliceable(Decoded(reply, decode).value["reasoning"])
  {
  }

  /** A reply whose object carries `"reasoning": null` makes the printed reasoning raise. */
  lemma NullReasoningDoesNotPrint(decode: Decoder)
    requires decode("{\"reasoning\": null}") == Some(map["reasoning" := Null])
    ensures !ReasoningPrints(StrategyOf(Replied("{\"reasoning\": null}"), decode))
  {
    var obj := "{\"reasoning\": null}";
    assert obj[0] == '{' && obj[|obj| - 1] == '}';
    assert NoOpenBrace("") && NoCloseBrace("");
    assert "" + obj + "" == obj;
    EmbeddedObjectIsCandidate("", obj, "");
  }

  /** The analysis's `scene_challenges`, missing read as `[]`, can be collected and tallied. */
  predicate ChallengesCountable(analysis: Obj) {
    CountableItems(Get(analysis, "scene_challenges", Array([])))
  }

  /** `b` is `a` with nothing but scene-analysis steps appended to its trace. */
  predicate ScenesOnly(a: State, b: State) {
    && b == a.(trace := b.trace)
    && |a.trace| <= |b.trace| && b.trace[..|a.trace|] == a.trace
    && forall i :: |a.trace| <= i < |b.trace| ==> b.trace[i].stage == SceneAnalysis
  }

  /** Analysing one frame logs at most one scene step and changes nothing else. */
  lemma AnalyzeSceneScenesOnly(a: State, path: string, reply: Reply, decode: Decoder)
    ensures ScenesOnly(a, AnalyzeScene(a, path, reply, decode).0)
  {
  }

  lemma ScenesOnlyTrans(a: State, b: State, c: State)
    requires ScenesOnly(a, b) && ScenesOnly(b, c)
    ensures ScenesOnly(a, c)
  {
    assert c.trace[..|b.trace|][..|a.trace|] == c.trace[..|a.trace|];
  }

  /** A selection made by an agent that only analysed scenes since it was created never logs a tool switch. */
  lemma FreshSelectionNoSwitch(a: State, b: State, scene: Obj, reply: Reply, decode: Decoder)
    requires Fresh(a) && ScenesOnly(a, b)
    ensures SelectStrategy(b, scene, reply, decode).0.toolSwitches == []
  {
  }

  /** The analysis's `instrument_count`, missing read as 0; `None` when it is not a number. */
  function InstrumentCountOf(analysis: Obj): Option<real> {
    AsNumber(Get(analysis, "instrument_count", Int(0)))
  }

  /**
   * `abs(gt_count - analysis_count) <= 1`: within one of the ground truth;
   * a count that is not a number makes the subtraction raise `TypeError`.
   */
  function InstrumentMatch(gtCount: nat, analysis: Obj): (r: Result<bool, string>)
    ensures r.Failure? <==> InstrumentCountOf(analysis).None?
    ensures r.Success? ==> (r.value <==> gtCount as real - 1.0 <= InstrumentCountOf(analysis).value <= gtCount as real + 1.0)
  {
    match InstrumentCountOf(analysis)
    case None => Failure("TypeError")
    case Some(count) =>
      var d := gtCount as real - count;
      Success((if d < 0.0 then -d else d) <= 1.0)
  }

  /**
   * An analysis without `instrument_count` (every fallback and error
   * dictionary) counts as a match exactly on frames with at most one
   * annotated instrument.
   */
  lemma MissingCountMatchesSparseFrames(gtCount: nat, analysis: Obj)
    requires "instrument_count" !in analysis
    ensures InstrumentMatch(gtCount, analysis) == Success(gtCount <= 1)
  {
  }

  /** A failed call yields an analysis without `instrument_count`. */
  lemma ErrorAnalysisHasNoCount(message: string, decode: Decoder)
    ensures "instrument_count" !in SceneOf(Raised(message), decode)
  {
  }

  // ---------------------------------------------------------------------------
  // The frame loop of the analysis scripts
  // ---------------------------------------------------------------------------

  /** `out` holds, in order, the successful results of `compare` on the frames in `kept`. */
  predicate Agrees<C(==)>(kept: seq<int>, out: seq<C>, compare: (int, Obj) -> Result<C, string>,
                      reply: int -> Reply, decode: Decoder) {
    && |out| == |kept|
    && forall k :: 0 <= k < |out| ==> compare(kept[k], SceneOf(reply(kept[k]), decode)) == Success(out[k])
  }

  /** One turn of the frame loop, for `targets[i]`. */
  method AnalyzeStep<C(==)>(a0: State, a: State, targets: seq<int>, i: nat, out: seq<C>, extracted: int -> bool,
                        compare: (int, Obj) -> Result<C, string>, reply: int -> Reply, framePath: int -> string, decode: Decoder)
    returns (a': State, out': seq<C>, failed: bool)
    requires i < |targets| && ScenesOnly(a0, a)
    requires Agrees(Filter(targets[..i], extracted), out, compare, reply, decode)
    ensures ScenesOnly(a0, a')
    ensures !failed ==> Agrees(Filter(targets[..i + 1], extracted), out', compare, reply, decode)
    ensures failed ==> extracted(targets[i]) && compare(targets[i], SceneOf(reply(targets[i]), decode)).Failure?
  {
    var t := targets[i];
    FilterStep(targets, i, extracted);
    a', out', failed := a, out, false;
    if extracted(t) {
      var next := AnalyzeScene(a, framePath(t), reply(t), decode);
      AnalyzeSceneScenesOnly(a, framePath(t), reply(t), decode);
      ScenesOnlyTrans(a0, a, next.0);
      a' := next.0;
      var c := compare(t, next.1);
      if c.Failure? {
        failed := true;
      } else {
        out' := out + [c.value];
      }
    }
  }

  /**
   * The loop `for frame in targets`: a frame that fails to extract is
   * skipped; every other frame is analysed by the agent and its analysis
   * compared, in order. A comparison that raises ends the run.
   */
  method AnalyzeFrames<C(==)>(a: State, targets: seq<int>, extracted: int -> bool, compare: (int, Obj) -> Result<C, string>,
                          reply: int -> Reply, framePath: int -> string, decode: Decoder)
    returns (a': State, r: Result<seq<C>, string>)
    ensures ScenesOnly(a, a')
    ensures r.Success? <==> forall t :: t in Filter(targets, extracted) ==> compare(t, SceneOf(reply(t), decode)).Success?
    ensures r.Success? ==> Agrees(Filter(targets, extracted), r.value, compare, reply, decode)
  {
    FilterMembers(targets, extracted);
    a' := a;
    var out: seq<C> := [];
    var i := 0;
    while i < |targets|
      invariant 0 <= i <= |targets|
      invariant ScenesOnly(a, a')
      invariant Agrees(Filter(targets[..i], extracted), out, compare, reply, decode)
    {
      var failed;
      a', out, failed := AnalyzeStep(a, a', targets, i, out, extracted, compare, reply, framePath, decode);
      if failed {
        var t := targets[i];
        assert t in targets && extracted(t) && compare(t, SceneOf(reply(t), decode)).Failure?;
        r := Failure("a comparison raised");
        return;
      }
      i := i + 1;
    }
    assert targets[..|targets|] == targets;
    r := Success(out);
    AgreesAllSucceed(Filter(targets, extracted), out, compare, reply, decode);
  }

  /** Every frame of a run that agrees with its results was compared successfully. */
  lemma AgreesAllSucceed<C>(kept: seq<int>, out: seq<C>, compare: (int, Obj) -> Result<C, string>,
                                reply: int -> Reply, decode: Decoder)
    requires Agrees(kept, out, compare, reply, decode)
    ensures forall t :: t in kept ==> compare(t, SceneOf(reply(t), decode)).Success?
  {
    forall t | t in kept ensures compare(t, SceneOf(reply(t), decode)).Success? {
      var k :| 0 <= k < |kept| && kept[k] == t;
    }
  }
}
