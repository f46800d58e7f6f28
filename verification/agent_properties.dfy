/** Properties of sequences of agent operations. */
module AgentProperties {

  import opened Wrappers
  import opened Json
  import opened ResponseParser
  import opened Agent

  /** Every log of `b` extends the same log of `a` by at most one record. */
  predicate GrowsByAtMostOne<T(==)>(before: seq<T>, after: seq<T>) {
    before <= after && |after| <= |before| + 1
  }

  /** `b` is `a` after one operation: each log grew by at most one record, nothing was removed. */
  predicate OneStep(a: State, b: State) {
    && GrowsByAtMostOne(a.trace, b.trace)
    && GrowsByAtMostOne(a.toolSwitches, b.toolSwitches)
    && GrowsByAtMostOne(a.recoveryEvents, b.recoveryEvents)
    && GrowsByAtMostOne(a.checkpoints, b.checkpoints)
    && b.apiKey == a.apiKey
  }

  /** The four logs are append-only: no single operation rewrites or removes an entry. */
  lemma OperationsAppendOnly(a: State, frame: int, metrics: map<string, real>, path: string,
                             scene: Obj, failureType: string, context: Obj, reply: Reply, decode: Decoder)
    ensures OneStep(a, QualityCheck(a, frame, metrics).0)
    ensures OneStep(a, AnalyzeScene(a, path, reply, decode).0)
    ensures OneStep(a, SelectStrategy(a, scene, reply, decode).0)
    ensures OneStep(a, HandleFailure(a, failureType, context, reply, decode).0)
  {
  }

  /** From the constructor's state, the first selection never logs a tool switch. */
  lemma FirstSelectionLogsNoSwitch(key: string, scene: Obj, reply: Reply, decode: Decoder)
    ensures SelectStrategy(NewState(key), scene, reply, decode).0.toolSwitches == []
  {
    assert !Truthy(NewState(key).detector);
  }

  /**
   * Two successful selections choosing detectors `A` then `B` (distinct,
   * non-empty) from a new agent log exactly one switch, from `A` to `B`.
   */
  lemma {:induction false} TwoSelectionsOneSwitch(key: string, scene1: Obj, scene2: Obj, text1: string, text2: string,
                                                  decode: Decoder, A: string, B: string)
    requires Get(ParseStrategy(text1, decode), "detector", Str("yolov8_surgical")) == Str(A)
    requires Get(ParseStrategy(text2, decode), "detector", Str("yolov8_surgical")) == Str(B)
    requires |A| > 0 && A != B
    ensures var a1 := SelectStrategy(NewState(key), scene1, Replied(text1), decode).0;
            var a2 := SelectStrategy(a1, scene2, Replied(text2), decode).0;
            |a2.toolSwitches| == 1 && a2.toolSwitches[0].fromTool == Str(A) && a2.toolSwitches[0].toTool == Str(B)
            && a2.detector == Str(B)
  {
    var a1 := SelectStrategy(NewState(key), scene1, Replied(text1), decode).0;
    FirstSelectionLogsNoSwitch(key, scene1, Replied(text1), decode);
    assert a1.detector == Str(A);
    assert Switches(a1.detector, Str(B));
  }

  /** Re-selecting the same detector never logs a switch. */
  lemma SameDetectorNoSwitch(a: State, scene: Obj, text: string, decode: Decoder)
    requires Get(ParseStrategy(text, decode), "detector", Str("yolov8_surgical")) == a.detector
    ensures SelectStrategy(a, scene, Replied(text), decode).0.toolSwitches == a.toolSwitches
  {
  }

  /**
   * A recovery handled right after a successful selection records the
   * selection just adopted as the tools used.
   */
  lemma RecoveryRecordsAdoptedTools(a: State, scene: Obj, text: string, failureType: string, context: Obj,
                                    reply: Reply, decode: Decoder)
    requires reply.Replied?
    ensures var a1 := SelectStrategy(a, scene, Replied(text), decode).0;
            var a2 := HandleFailure(a1, failureType, context, reply, decode).0;
            var s := ParseStrategy(text, decode);
            |a2.recoveryEvents| == |a.recoveryEvents| + 1
            && a2.recoveryEvents[|a.recoveryEvents|].toolsUsed
                 == [Get(s, "detector", Str("yolov8_surgical")), Get(s, "tracker", Str("byte_track"))]
  {
  }

  /** A decoder whose every object carries a tracker but no detector. */
  function TrackerOnly(candidate: string): Option<Obj> {
    Some(map["tracker" := Str("deep_sort")])
  }

  /**
   * The `KeyError` of `track_video`: a reply whose object lacks `detector`
   * makes the report on line 395 raise, although the agent itself adopted
   * the default detector.
   */
  lemma TrackVideoReportCanRaise()
    ensures PrintedStrategyAsWritten(SelectStrategy(NewState("k"), PlaceholderScene, Replied("{}"), TrackerOnly).1).None?
    ensures SelectStrategy(NewState("k"), PlaceholderScene, Replied("{}"), TrackerOnly).0.detector == Str("yolov8_surgical")
  {
    TrackerOnlyStrategy();
  }

  /** The reply `{}` under the tracker-only decoder parses to a strategy without `detector`. */
  lemma TrackerOnlyStrategy()
    ensures ParseStrategy("{}", TrackerOnly) == map["tracker" := Str("deep_sort")]
    ensures "detector" !in ParseStrategy("{}", TrackerOnly)
  {
    assert "{}"[0] == '{' && "{}"[1] == '}';
    EmbeddedObjectIsCandidate("", "{}", "");
    assert "" + "{}" + "" == "{}";
  }
}
