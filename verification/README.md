# SurgAgent in Dafny

A Dafny model of the core of SurgAgent, an agent that tracks surgical instruments in laparoscopic video. The model covers:

- **The `SurgAgent` class** (src/agent.py): construction, scene analysis, strategy selection, failure handling and quality checkpoints. It also covers the simulated `track_video` and `_simulate_tracking`, the lenient JSON extraction from model replies, and the reasoning summary.
- **The evaluation scripts that drive the agent:**
  - the thorough ground-truth comparison (src/test_thorough_analysis.py);
  - the sampled, resumable full-video analysis (src/test_sampled_full_analysis.py);
  - the end-to-end video test (src/test_video_tracking.py);
  - the comprehensive scenario test (src/test_comprehensive.py);
  - the synthetic demo (src/demo.py).

How the outside world is represented:

- **Model calls.** Every call to the generative model becomes a `Reply`: either the reply text or the message of the exception the call raised.
- **`json.loads`** becomes a `Decoder` parameter, which maps a candidate string to a dictionary or to nothing.
- **Frame extraction, frame paths and per-frame replies** become function parameters of the runs (`extracted`, `ok`, `framePath`, `reply`).
- **Values read from replies** are JSON values with Python's truthiness and `dict.get` defaults.
- **Annotation files** are sequences of frames in key order. Each frame has its annotations: instrument code, phase code and challenge flags. A frame key is its number, which assumes every key is the canonical decimal form of that number (see "## Left out").
- **Integers** are unbounded, as in Python. Floor division, the `ZeroDivisionError` cases and the `ValueError` of a zero slice step are written out as `Failure` results.
- **Printing.** The text printed is not modelled, but the `TypeError`s the printing code raises on wrongly typed values are. Examples are summing a visibility given as text, slicing a `null` reasoning, and collecting challenges given as a number. Those raises are `Failure` outcomes of the runs.

Modules:

| module | file | contents |
|---|---|---|
| `Wrappers` | wrappers.dfy | `Option`, `Result` |
| `Json` | json.dfy | JSON values, truthiness, `get` with a default, the Python types slicing, hashing and iteration accept |
| `ResponseParser` | response_parser.dfy | the greedy `\{.*\}` search and the three parse defaults |
| `Agent` | agent.dfy | agent state, the four operations, simulated tracking, the summary |
| `AgentProperties` | agent_properties.dfy | properties of sequences of agent operations |
| `Sampling` | sampling.dfy | filtering, sorting, the evenly spaced pick, `xs[::n]` |
| `GroundTruth` | ground_truth.dfy | the annotation counters and the two `get_gt_for_frame` variants |
| `FrameRuns` | runs.dfy | the shared "extract, analyse, compare" loop over target frames |
| `ThoroughAnalysis` | thorough.dfy | `run_thorough_analysis` |
| `SampledAnalysis` | sampled.dfy | `run_sampled_analysis`, `save_results`, the summary |
| `VideoTracking` | video.dfy | `run_video_tracking_test` |
| `Comprehensive` | comprehensive.dfy | `run_comprehensive_test` |
| `Demo` | demo.dfy | scenarios, `generate_predictions`, `run_demo` |

`handle_failure` logs nothing when the model call raises and returns `"reinitialize"` (src/agent.py:329-332).

## Model

| member | source | states |
|---|---|---|
| Agent.Init | src/agent.py:99-120 | Construction succeeds iff the explicit key or the environment key is non-empty. The explicit key wins when both are set. The new agent has no detector or tracker and five empty logs. |
| Agent.Decide | src/agent.py:345-357 | `continue` iff avg ≥ 0.65, `switch_tool` iff 0.5 ≤ avg < 0.65, `replan` iff avg < 0.5: three bands covering every confidence. |
| Agent.DecideMonotone | src/agent.py:345-357 | A higher average confidence never gives a more severe decision. |
| Agent.QualityCheck | src/agent.py:334-366 | The decision comes from `avg_confidence` defaulting to 0.8, so a missing metric means `continue`. Exactly one checkpoint with threshold 0.65 is appended and nothing else changes. |
| Agent.AnalyzeScene | src/agent.py:124-185 | A raised call leaves the agent unchanged and returns the fallback with visibility 5. A reply yields the parsed analysis and appends one `scene_analysis` step naming the frame path; nothing else changes. |
| Agent.SelectStrategy | src/agent.py:187-265 | A raised call leaves the agent unchanged and returns the default pair. A reply adopts `detector`/`tracker` with their defaults and appends one `tool_selection` step. One switch is logged iff the old detector was truthy and differs from the new one. |
| Agent.HandleFailure | src/agent.py:267-332 | A raised call changes nothing and answers `reinitialize`. A reply appends one recovery event (frame from the context, default 0; tools = the current pair) and one `replanning` step; other state is untouched. |
| Agent.SimulateTracking | src/agent.py:424-440 | One prediction per frame, frame i at position i. One `continue` checkpoint per positive multiple of 10 below the frame count, appended after the existing ones; nothing else changes. |
| Agent.PrintedStrategyAsWritten | src/agent.py:393-395 | The report line as written succeeds iff the parsed strategy has both `detector` and `tracker`. |
| Agent.PrintedStrategy | src/agent.py:393-395 | The pair the report line means to print agrees with the indexing as written whenever that does not raise. A missing `detector` or `tracker` shows the default `yolov8_surgical` or `byte_track`. |
| Agent.TrackVideo | src/agent.py:368-422 | On a reply the report shows the adopted detector and tracker, both stated. On a raised call it shows the fallback strategy's `yolov8_surgical` + `byte_track` (src/agent.py:260-265) while the agent keeps its previous tools. There are 30 predictions and checkpoints at frames 10 and 20. The trace gains a selection step (on a reply) and a validation step. The returned bundle mirrors the agent's final logs. |
| Agent.StepLines | src/agent.py:498-501 | Three lines per reasoning step, in trace order: stage, action, reasoning. |
| Agent.ReasoningSummary | src/agent.py:494-511 | Header of three lines, then three per step. A switch-count line iff there was a switch and a recovery-count line iff there was a recovery; the last line is the checkpoint count. |
| AgentProperties.OperationsAppendOnly | src/agent.py:124-366 | Each of the four operations extends each log by at most one record, never rewrites one, and keeps the key. |
| AgentProperties.FirstSelectionLogsNoSwitch | src/agent.py:230-244 | From a new agent the first selection never logs a switch. |
| AgentProperties.TwoSelectionsOneSwitch | src/agent.py:230-244 | Selecting A then a different B from a new agent logs exactly one switch, from A to B. |
| AgentProperties.SameDetectorNoSwitch | src/agent.py:230-244 | Re-selecting the current detector logs no switch. |
| AgentProperties.RecoveryRecordsAdoptedTools | src/agent.py:305-316 | A recovery after a selection records the pair that selection adopted. |
| AgentProperties.TrackVideoReportCanRaise | src/agent.py:393-395 | A reply decoding to a strategy without `detector` makes the report raise while the agent adopted the default detector. |
| ResponseParser.BraceSpan | src/agent.py:446-448 | A match exists iff some `}` follows some `{`. The match is the greedy span from the first `{` to the last `}`. |
| ResponseParser.GreedyMatchUnique | src/agent.py:446-448 | There is at most one greedy match. |
| ResponseParser.Parse | src/agent.py:442-492 | No match, or a match that does not decode, gives the call site's default; otherwise the decoded dictionary. |
| ResponseParser.Prefix | src/agent.py:459 | `text[:500]` keeps the first min(len, 500) characters. |
| ResponseParser.EmbeddedObjectIsCandidate | src/agent.py:446-448 | An object surrounded by text with no `{` before and no `}` after is extracted exactly. |
| ResponseParser.NoBraceGivesStrategyDefault | src/agent.py:462-476 | A reply without `{` parses to the default strategy whatever the decoder. |
| ResponseParser.ProseAroundStrategyObject | src/agent.py:462-476 | Prose before an object does not disturb its extraction. |
| Json.AsNumber | src/test_thorough_analysis.py:265-268 | Integers, reals and booleans take part in the count comparison as numbers; other values do not. |
| Json.PythonTypeExamples | src/test_video_tracking.py:203-228 | Strings and lists slice; `null` and numbers do not. Lists and dicts are unhashable. A number cannot be extended from, and a list of lists cannot be tallied. |
| FrameRuns.SceneOf | src/agent.py:124-185 | The analysis returned depends only on the reply: the fallback (visibility 5, with an error) on a raised call, the parse default (visibility 7) for a reply without braces. |
| FrameRuns.StrategyOf | src/agent.py:187-265 | The strategy returned depends only on the reply; a raised call gives the default pair. |
| FrameRuns.Decoded | src/agent.py:442-476 | A reply that decodes gives its dictionary as both the scene analysis and the strategy. A reply that does not gives the two parse defaults. |
| FrameRuns.ReasoningPrintsUnlessDecoded | src/test_comprehensive.py:115 | Slicing the printed reasoning raises iff the reply decoded to a dictionary whose `reasoning` is neither a string nor a list. |
| FrameRuns.NullReasoningDoesNotPrint | src/test_comprehensive.py:115 | The reply `{"reasoning": null}` makes the printed reasoning raise. |
| FrameRuns.AnalyzeSceneScenesOnly | src/agent.py:164-173 | Scene analysis touches only the trace, so tools, switches, recoveries and checkpoints stay as they were. |
| FrameRuns.FreshSelectionNoSwitch | src/agent.py:230-244 | An agent that has only analysed scenes since construction logs no switch on its first selection. |
| FrameRuns.InstrumentMatch | src/test_thorough_analysis.py:265-268 | The count matches iff the analysis' count is within 1 of the ground truth. A count the comparison cannot subtract makes it raise. |
| FrameRuns.MissingCountMatchesSparseFrames | src/test_thorough_analysis.py:265-268 | With no `instrument_count` in the analysis, a frame matches iff it has at most one annotation. |
| FrameRuns.ErrorAnalysisHasNoCount | src/agent.py:177-185 | The fallback analysis of a raised call has no instrument count. |
| FrameRuns.AnalyzeFrames | src/test_thorough_analysis.py:241-277 | The loop succeeds iff every extracted target compares without raising. It then yields exactly one comparison per extracted target, in target order. Only the trace changes. |
| Sampling.FilterMembers | src/test_sampled_full_analysis.py:116 | A comprehension keeps exactly the elements satisfying the condition. |
| Sampling.FilterMultiset | src/demo.py:297 | A comprehension keeps every occurrence of a kept element and none of a dropped one. |
| Sampling.FilterSubsequence | src/test_sampled_full_analysis.py:116 | A comprehension keeps the original order. |
| Sampling.Sort | src/test_thorough_analysis.py:226 | `sorted` returns an ascending permutation of its input. |
| Sampling.SortMembers | src/test_sampled_full_analysis.py:94 | Sorting keeps exactly the elements. |
| Sampling.EvenSample | src/test_thorough_analysis.py:227-231 | With at least n items, n items, item i at position i·(len // n). With fewer, the whole list. n = 0 raises and a negative n picks nothing. |
| Sampling.EvenSampleKeepsOrder | src/test_thorough_analysis.py:227-231 | The pick of a sorted list is sorted. |
| Sampling.EvenSampleSubsequence | src/test_comprehensive.py:41-46 | The pick never reorders: it is a subsequence of the list. |
| Sampling.Stride | src/test_sampled_full_analysis.py:97 | `xs[::n]` raises for n = 0; otherwise it has ceil(len/\|n\|) items, item i at position i·n (from the end for negative n). |
| Sampling.StrideKeepsOrder | src/test_sampled_full_analysis.py:97 | A positive stride of a sorted list is sorted. |
| GroundTruth.CodeTables | src/test_thorough_analysis.py:39-58 | Instrument and phase codes are exactly 0..6. |
| GroundTruth.InstrumentNamesDistinct | src/test_thorough_analysis.py:39-47 | Distinct instrument codes have distinct names. |
| GroundTruth.Tally | src/test_thorough_analysis.py:75-76 | A `Counter` has exactly the counted names as keys, each with its multiplicity. |
| GroundTruth.InstrumentTallyCountsCodes | src/test_thorough_analysis.py:95-97 | The count of an instrument name is the number of annotations carrying its code. |
| GroundTruth.UnknownCodesIgnored | src/test_thorough_analysis.py:95-97 | Annotations with unmapped instrument codes leave the counter empty. |
| GroundTruth.CountFrame | src/test_thorough_analysis.py:93-116 | Counting a frame's annotations one by one equals counting them all at once. |
| GroundTruth.AnalyzeGroundTruth | src/test_thorough_analysis.py:68-122 | One number and one count per frame key, in key order. The instrument and phase counters and the six challenge counts are taken over all annotations. The average exists iff there is a frame and equals total/frames. |
| GroundTruth.InstrumentSet | src/test_thorough_analysis.py:141-144 | A name is present iff some annotation carries a code mapping to it. |
| GroundTruth.LastPhase | src/test_thorough_analysis.py:146-148 | No phase iff no annotation has a mapped phase; otherwise the phase of the last such annotation. |
| GroundTruth.LabelSet | src/test_thorough_analysis.py:150-157 | A challenge label is present iff some annotation carries its flag. |
| GroundTruth.Digest | src/test_thorough_analysis.py:159-165 | The frame and the instrument count (number of annotations) are reported as given. |
| GroundTruth.FrameNumbers | src/test_thorough_analysis.py:130 | One number per frame key, in key order. |
| GroundTruth.Lookup | src/test_thorough_analysis.py:135 | The annotations of the frame with that number, or none when no frame has it. Keys are assumed canonical (see "## Left out"). |
| GroundTruth.ClosestIndex | src/test_thorough_analysis.py:134 | The chosen frame is nearest to the target, and earliest among equally near frames. |
| GroundTruth.NearestLookup | src/test_thorough_analysis.py:134-135 | Looking up the nearest frame's number finds that frame's annotations. |
| GroundTruth.GtClosest | src/test_thorough_analysis.py:125-165 | Empty iff there are no annotated frames. Otherwise it digests the nearest frame, with challenges among occlusion, blood, smoke and blur. Keys are assumed canonical. |
| GroundTruth.GtExact | src/test_sampled_full_analysis.py:45-65 | It digests exactly the requested frame, with challenges among occlusion, blood and smoke. A frame without annotations gives empty ground truth. Keys are assumed canonical. |
| ThoroughAnalysis.TargetFrames | src/test_thorough_analysis.py:226-231 | The targets are ascending annotated frame numbers, as many as requested (or all frames). 0 raises. |
| ThoroughAnalysis.Contains | src/test_thorough_analysis.py:270-273 | Substring containment: true iff the needle occurs at some position. |
| ThoroughAnalysis.PhaseMatch | src/test_thorough_analysis.py:269-274 | Without a ground-truth phase the frame matches. Otherwise it matches iff one lower-cased, space-separated phase contains the other. |
| ThoroughAnalysis.PhaseNamedMatches | src/test_thorough_analysis.py:269-274 | An analysis naming the ground-truth phase matches it. |
| ThoroughAnalysis.MissingPhaseAlwaysMatches | src/test_thorough_analysis.py:269-274 | An analysis without `estimated_phase` matches every phase, since the empty string is contained in every string. |
| ThoroughAnalysis.Compare | src/test_thorough_analysis.py:258-276 | It succeeds iff both match rules evaluate. A comparison then holds the frame, the nearest ground truth, the analysis, the two match flags, and a timestamp that times 25 gives the frame (`frame_idx / 25`, :260). |
| ThoroughAnalysis.MatchCount | src/test_thorough_analysis.py:290-291 | The number of matches is at most the number of comparisons, and equal iff every comparison matches. |
| ThoroughAnalysis.PercentAsWritten | src/test_thorough_analysis.py:295 | The printed percentage raises iff nothing was compared; otherwise it is in [0, 100]. |
| ThoroughAnalysis.Percent | src/test_thorough_analysis.py:360-361 | It agrees with the printed percentage whenever that is defined and is 0 otherwise. It is in [0, 100], and 100 iff every comparison matched. |
| ThoroughAnalysis.FullIffAll | src/test_thorough_analysis.py:360 | 100% iff all comparisons match. |
| ThoroughAnalysis.EmptyAnnotationsCannotReport | src/test_thorough_analysis.py:295 | An annotation file without frames yields no comparison, and the printed percentage then raises. |
| ThoroughAnalysis.FallbackRowPrints | src/test_thorough_analysis.py:312-322 | The fallback analyses of a raised call or an undecodable reply always print. |
| ThoroughAnalysis.UntypedRowsBreakTable | src/test_thorough_analysis.py:312-322 | A `null` or numeric phase, numeric challenges, or a list of dicts as challenges makes the table or the tally raise. |
| ThoroughAnalysis.Report | src/test_thorough_analysis.py:290-368 | With the division at :295 guarded. It raises iff some analysis cannot be printed in the table or tallied, or a frame was compared and the strategy's reasoning cannot be sliced (:336). Otherwise the report holds the comparisons and ground-truth statistics, calls = comparisons + 1, and accuracies in [0, 100]. The strategy comes from the last analysis, or is empty when nothing was compared. No switch, recovery or checkpoint is logged. |
| ThoroughAnalysis.ComparisonsCarryAnalyses | src/test_thorough_analysis.py:258-277 | The comparisons' analyses print iff the analyses of the compared frames do. |
| ThoroughAnalysis.RunThorough | src/test_thorough_analysis.py:181-378 | With the division at :295 guarded. 0 frames raises. Otherwise the run reports iff every compared frame's match rules evaluate and its row prints, and, when a frame was compared, the reasoning prints. The comparisons are one per extracted target, in order; calls = comparisons + 1; the strategy is empty iff nothing was compared. |
| SampledAnalysis.SampledFrames | src/test_sampled_full_analysis.py:93-98 | Every n-th sorted frame number: raises iff n = 0, ceil(frames/\|n\|) of them, ascending annotated frame numbers for n > 0. |
| SampledAnalysis.Completed | src/test_sampled_full_analysis.py:113 | The completed set holds exactly the frames of the saved comparisons. |
| SampledAnalysis.Remaining | src/test_sampled_full_analysis.py:116 | A frame remains iff it is sampled and not completed. |
| SampledAnalysis.RemainingKeepsOrder | src/test_sampled_full_analysis.py:116 | The remaining frames keep the sampled order. |
| SampledAnalysis.NothingSavedAllRemain | src/test_sampled_full_analysis.py:107-116 | Without a saved file every sampled frame remains. |
| SampledAnalysis.CompareSampled | src/test_sampled_full_analysis.py:146-163 | A comparison holds the exact-frame ground truth, `frame / 25` and the ±1 count match. It raises iff the analysis' count is not a number. |
| SampledAnalysis.InstMatches | src/test_sampled_full_analysis.py:195 | The number of matching results: all iff every result matches, none iff none does. |
| SampledAnalysis.SaveResults | src/test_sampled_full_analysis.py:193-203 | The saved file carries the sampled and analysed counts and the results. Its accuracy is `0%` iff there are no results, otherwise the percentage of matches. |
| SampledAnalysis.SavePoints | src/test_sampled_full_analysis.py:177-179 | Progress is saved after exactly the result counts that are multiples of 10, in increasing order. |
| SampledAnalysis.FewResultsSaveOnlyAtEnd | src/test_sampled_full_analysis.py:177-186 | Fewer than 10 results are saved only by the final save. |
| SampledAnalysis.FallbackTallyPrints | src/test_sampled_full_analysis.py:224-228 | The fallback analyses always tally. |
| SampledAnalysis.UntypedAnalysesBreakTally | src/test_sampled_full_analysis.py:224-228 | A list as phase, or a number as challenges, makes the tally raise; a `null` phase and dict challenges do not. |
| SampledAnalysis.SummaryTallies | src/test_sampled_full_analysis.py:224-228 | The summary tallies the saved results followed by the new ones iff it can tally every one of them. |
| SampledAnalysis.RunSampled | src/test_sampled_full_analysis.py:73-248 | With the division at :217 guarded. Nothing happens without the files, or when every sampled frame is completed; rate 0 raises. Otherwise the run ends normally iff every compared frame's count is a number and every result, saved or new, can be tallied. The results are the saved comparisons followed by one per extracted remaining frame, in order. The saves happen at the multiples of 10 and at the end. |
| SampledAnalysis.NewFramesNotCompleted | src/test_sampled_full_analysis.py:113-116 | No frame is analysed twice across a resume. |
| SampledAnalysis.PrintedAccuracyAsWritten | src/test_sampled_full_analysis.py:217 | The printed accuracy raises iff there are no results; otherwise it equals the saved percentage. |
| SampledAnalysis.NoExtractedFrameBreaksSummary | src/test_sampled_full_analysis.py:217 | One annotated frame that fails to extract saves `0%` but makes the summary raise. |
| VideoTracking.TotalFrames | src/test_video_tracking.py:140 | A reported count of 0 falls back to 7500; others are kept. |
| VideoTracking.FloorDiv | src/test_video_tracking.py:141 | Python's floor division: q·b ≤ a < q·b + b for b > 0, mirrored for b < 0. |
| VideoTracking.FrameStep | src/test_video_tracking.py:141 | The step is at least 1 and raises iff n = 0. When n ≤ total, n steps fit in the total and n + 1 do not. |
| VideoTracking.TargetFrames | src/test_video_tracking.py:140-142 | n targets starting at 0, strictly increasing, inside the video when n ≤ total. n = 0 raises and a negative n gives none. |
| VideoTracking.DefaultTargets | src/test_video_tracking.py:140-142 | Without metadata the five default targets are 0, 1500, 3000, 4500, 6000. |
| VideoTracking.ExtractFrames | src/test_video_tracking.py:63-85 | The extracted frames are exactly the requested frames whose extraction succeeds, in request order. |
| VideoTracking.LabelsAsWritten | src/test_video_tracking.py:168-170 | The i-th analysed frame is labelled with the i-th target, not with the target it came from. |
| VideoTracking.LabelsRightWhenAllExtract | src/test_video_tracking.py:168-170 | The labels as written are right when every extraction succeeds. |
| VideoTracking.FailedExtractionShiftsLabels | src/test_video_tracking.py:168-170 | A failed first extraction makes frame 1500 be reported as frame 0. |
| VideoTracking.FallbackAnalysisPrints | src/test_video_tracking.py:210-228 | The fallback analyses of a raised call or an undecodable reply always print. |
| VideoTracking.TextVisibilityBreaksSummary | src/test_video_tracking.py:210-217 | A visibility of `"7/10"` or `null`, or challenges given as `5`, make the summary raise. |
| VideoTracking.ResultsCarryAnalyses | src/test_video_tracking.py:168-183 | The results' analyses print iff the analyses of the extracted frames do. |
| VideoTracking.RunVideoTracking | src/test_video_tracking.py:96-267 | Nothing happens for a missing video and n = 0 raises. Otherwise the run raises iff some frame extracted and either the strategy's reasoning cannot be sliced (:203) or some extracted frame's analysis cannot be summarised (:210-228). A report has one result per extracted frame, in order and labelled with its own frame; calls = results + 1; the strategy comes from the last analysis. |
| Comprehensive.FindTestImages | src/test_comprehensive.py:35-47 | No dataset gives no images; max 0 raises. The pick is an order-preserving subsequence: max evenly spaced images, or all of them when fewer. |
| Comprehensive.RunPicksAtMostThree | src/test_comprehensive.py:63 | The run picks min(3, available) images. |
| Comprehensive.AnalyzeImages | src/test_comprehensive.py:77-89 | One analysis per image, in order; only the trace changes. |
| Comprehensive.RecoveryLogged | src/agent.py:305-316 | An answered failure adds one event with the context's frame, the failure type and the current tools; a raised one adds none. |
| Comprehensive.HandleScenarios | src/test_comprehensive.py:122-131 | Two actions. Each answered scenario logs one event: `track_loss` at frame 50, then `low_confidence` at frame 100, both naming the tools in use. |
| Comprehensive.SelectAfterScenes | src/test_comprehensive.py:103-110 | The strategy comes from the last analysis without a logged switch. A raised call leaves the tools unset. |
| Comprehensive.RunComprehensive | src/test_comprehensive.py:50-173 | The agent is built first; nothing else happens without images. With images, the run raises iff the selected strategy's reasoning cannot be sliced (:115), and then no failure scenario has run. Otherwise one analysis per image, calls = images + 1 + 2, and one recovery event per answered scenario. After a raised selection the events name no tools. |
| Demo.ScenarioTable | src/demo.py:38-79 | The four keys name the four scenarios, each with frames. |
| Demo.SelectScenarioKeys | src/demo.py:294-297 | No selection or `all` selects every scenario in declaration order. Otherwise the selection's known names in its order: a subsequence that keeps each known name exactly as often as the selection names it, and drops every unknown name. |
| Demo.KnownNames | src/demo.py:297 | The known names of a selection keep its order and each known name's multiplicity, and contain nothing else. |
| Demo.RepeatedNameEvaluatedTwice | src/demo.py:297 | A known name given twice is selected, and so evaluated, twice. |
| Demo.SingleNameSelection | src/demo.py:340-341 | A single command-line name selects itself iff it is a known scenario. |
| Demo.Clamp | src/demo.py:114 | The confidence is clamped into [0.65, 0.98] and left alone inside it. |
| Demo.Confidence | src/demo.py:108-114 | Every fabricated confidence lies in [0.65, 0.98]. |
| Demo.BasicUnclamped | src/demo.py:108-114 | In the basic scenario confidence is 0.92 plus 0.01·(frame mod 5). |
| Demo.OcclusionDip | src/demo.py:108-114 | In the occlusion window of a medium or hard occluded scenario, confidence is 0.70 plus 0.01·(frame mod 5). |
| Demo.DemoPrediction | src/demo.py:117-123 | A grasper (id 1) and a bipolar (id 2) exactly 0.05 less confident. |
| Demo.CheckpointFrames | src/demo.py:150 | The checkpoints are exactly the multiples of 15 in [15, n), ascending, (n−1)//15 of them. |
| Demo.ScenarioCheckpoints | src/demo.py:150 | 30 frames check at 15; 60 at 15, 30, 45; 90 at 15 to 75. |
| Demo.GeneratePredictions | src/demo.py:82-184 | Raises iff there are no frames (the closing average). Otherwise one prediction per frame and the four stages. One switch iff the scenario has a tool switch and one recovery iff it has failure recovery. `advanced_detector` is among the tools iff it switches; checkpoints every 15 frames. |
| Demo.AverageAsWritten | src/demo.py:317 | The summary average raises iff nothing was evaluated; otherwise average × count = sum. |
| Demo.Average | src/demo.py:317 | No average iff nothing was evaluated; otherwise the average as written. |
| Demo.EvaluateScenario | src/demo.py:206-280 | A known scenario evaluates without raising, and its trace is the four demo stages. |
| Demo.RunDemo | src/demo.py:283-327 | With the division at :317 guarded. One result per selected key, in order, each with its scenario, composite score and four-stage trace. The average exists iff some scenario ran. |
| Demo.UnknownScenarioBreaksSummary | src/demo.py:317 | An unknown scenario name selects nothing, and the average as written then raises. |

## Left out

- Network, files, subprocesses and the terminal are parameters or dropped. This covers the model calls, `ffmpeg`/`ffprobe`, `json.dump`, printing, temporary directories, `time.sleep` rate limiting and image listing.
- Timestamps, timings, processing times, the ETA and the prose fields of reasoning steps and switches are not modelled. Those fields are human-readable text built from f-strings.
- The frame-path format and `frame_idx / fps` timestamps (src/test_video_tracking.py:69, 179) are not modelled. Paths come from a parameter; the sampled and thorough comparisons keep `frame / 25` exactly.
- `json.loads` is not modelled, since a decoder is a parameter. Python's cross-type equality (`1 == 1.0 == True`) is not modelled either: `Switches` compares JSON values structurally.
- Floating point is not modelled. Reals are exact, so `0.92 - 0.12` is exactly 0.80, and `round`, `:.0f`/`:.1f` formatting and the string form of percentages are left out.
- `get_video_info` is not modelled: its float duration times an `eval`ed frame rate is outside the model, which starts from the reported total frame count.
- The values printed by the summaries are not computed. This covers the `print_summary` distributions and `most_common` orderings and the video test's averages and phase sets (src/test_sampled_full_analysis.py:221-236, src/test_video_tracking.py:210-237). Only whether they raise `TypeError` is modelled, by `VideoTracking.SummaryPrints`, `ThoroughAnalysis.RowPrints` and `SampledAnalysis.TallyPrints`.
- The resume file's shape is not modelled: saved comparisons are given as a sequence of comparisons, with no JSON reading of the file.
- `calculate_composite_score` and the PASS/CHECK status are floating-point scoring. The composite score is a parameter of `Demo.RunDemo`.
- src/test_gemini_e2e.py, src/main.py and src/gemini_vision.py are not part of this model; they are callers and wrappers of the agent.
- Demo.GeneratePredictions: the checkpoint averages and `continue`/`switch_tool` decisions (src/demo.py:151-155), `confidence_scores` rounding and the processing time are left out, because they are rounded floating-point values.
- Demo.RunDemo: the composite score is supplied rather than computed, because its formula is floating point.
- ThoroughAnalysis.PhaseMatch: `lower()` is modelled for ASCII letters only, because Unicode case mapping is outside the model.
- Comprehensive.FindTestImages: the image list is given already sorted; `rglob` discovery is left out, as it reads the file system.
- Agent.ReasoningSummary: the lines are structured values rather than formatted text, because emoji and f-string formatting are presentation.
- Agent.AnalyzeScene: the image is not opened. Opening an image that fails is modelled as the call raising, the same path as a failed model call.
- GroundTruth.Lookup: frame keys are integers, so every annotation key is assumed to satisfy `str(int(k)) == k`. For a key such as `"007"` the source finds nothing through `frames_data.get(str(7), [])`, where the model finds the frame. A non-numeric key, which makes `int(f)` raise `ValueError` (src/test_thorough_analysis.py:90, 130), cannot be expressed.
- GroundTruth.GtClosest: inherits the canonical-key assumption of `GroundTruth.Lookup` (src/test_thorough_analysis.py:130-135).
- GroundTruth.GtExact: inherits the canonical-key assumption of `GroundTruth.Lookup` (src/test_sampled_full_analysis.py:47).
- ThoroughAnalysis.Report: the percentages at :295 are guarded, as corrected under "## Findings"; the source raises `ZeroDivisionError` there when nothing was compared.
- ThoroughAnalysis.RunThorough: the same guarded division at :295. The missing video or annotation file check (src/test_thorough_analysis.py:193-195), which returns `None` before any agent is made, is left out: the run starts from annotations that were read.
- SampledAnalysis.RunSampled: the accuracy at :217 is guarded, as corrected under "## Findings". When a comparison (src/test_sampled_full_analysis.py:154) or the summary raises, the progress already saved at :177-179 is not part of the failure outcome.
- FrameRuns.InstrumentMatch: `abs(a - b) <= 1` is exact over reals. It raises for non-numeric counts but does not model Python's string or list arithmetic errors in detail.

## Findings

| source | as written | input that shows it | evidently intended | confidence | as-written member | corrected member |
|---|---|---|---|---|---|---|
| src/test_video_tracking.py:170 | The i-th extracted frame is labelled `target_frames[i]`. | Targets 0 and 1500 where extracting frame 0 fails: the image of frame 1500 is reported as frame 0. | Label each result with the frame it was extracted from. | not executed; high | VideoTracking.LabelsAsWritten (VideoTracking.FailedExtractionShiftsLabels) | VideoTracking.RunVideoTracking |
| src/agent.py:395 | The report indexes `strategy['detector']` and `strategy['tracker']` of the parsed reply. | The reply `{"tracker": "deep_sort"}` raises `KeyError`, although the agent adopted `yolov8_surgical`. | Report the strategy's pair with the defaults the agent adopts. | not executed; high | Agent.PrintedStrategyAsWritten (AgentProperties.TrackVideoReportCanRaise) | Agent.PrintedStrategy, used by Agent.TrackVideo |
| src/test_thorough_analysis.py:295 | The match percentages divide by the number of comparisons. | An annotation file with no frames, or every extraction failing, gives `ZeroDivisionError`. | Report 0% when nothing was compared, as `save_results` of the sampled script does. | not executed; high | ThoroughAnalysis.PercentAsWritten (ThoroughAnalysis.EmptyAnnotationsCannotReport) | ThoroughAnalysis.Percent, used by ThoroughAnalysis.Report and ThoroughAnalysis.RunThorough |
| src/test_sampled_full_analysis.py:217 | The summary accuracy divides by the number of results. | One annotated frame, rate 10, and that frame fails to extract: `0%` is saved, then the summary raises `ZeroDivisionError`. | Guard the empty case as `save_results` does. | not executed; high | SampledAnalysis.PrintedAccuracyAsWritten (SampledAnalysis.NoExtractedFrameBreaksSummary) | SampledAnalysis.SaveResults, used by SampledAnalysis.RunSampled |
| src/demo.py:317 | The average composite score divides by the number of results. | `--scenario unknown` selects no scenario and raises `ZeroDivisionError`. | Report no average when nothing was evaluated. | not executed; high | Demo.AverageAsWritten (Demo.UnknownScenarioBreaksSummary) | Demo.Average, used by Demo.RunDemo |
