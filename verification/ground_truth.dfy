/**
 * Digestion of CholecTrack20 annotations (src/test_thorough_analysis.py and
 * src/test_sampled_full_analysis.py): integer instrument and phase codes
 * mapped to names, per-type counters, challenge counters, and the ground
 * truth reported for one frame.
 */
module GroundTruth {

  import opened Wrappers

  /** The challenge fields of an annotation. */
  datatype Flag = Occluded | Bleeding | Smoke | Blurred | Reflection | StainedLens

  const AllFlags: set<Flag> := {Occluded, Bleeding, Smoke, Blurred, Reflection, StainedLens}

  /**
   * One instrument annotation. A missing code reads as -1, the source's
   * default; `flags` holds the challenge fields whose value is truthy.
   */
  datatype Annotation = Annotation(instrument: int, phase: int, flags: set<Flag>)

  /** One key of the `annotations` object (a frame number) with its list. */
  datatype FrameAnnotations = FrameAnnotations(frame: int, annotations: seq<Annotation>)

  /** The `annotations` object, in the order its keys appear. */
  type Annotations = seq<FrameAnnotations>

  const InstrumentNames: map<int, string> := map[
    0 := "grasper", 1 := "bipolar", 2 := "hook", 3 := "scissors",
    4 := "clipper", 5 := "irrigator", 6 := "specimen-bag"]

  const PhaseNames: map<int, string> := map[
    0 := "preparation", 1 := "calot_triangle_dissection", 2 := "clipping_and_cutting",
    3 := "gallbladder_dissection", 4 := "gallbladder_packaging",
    5 := "cleaning_and_coagulation", 6 := "gallbladder_retraction"]

  /** Both code tables cover exactly the codes 0..6. */
  lemma CodeTables()
    ensures forall c :: c in InstrumentNames <==> 0 <= c < 7
    ensures forall c :: c in PhaseNames <==> 0 <= c < 7
  {
  }

  /** Distinct instrument codes have distinct names. */
  lemma InstrumentNamesDistinct(c: int, d: int)
    requires c in InstrumentNames && d in InstrumentNames && c != d
    ensures InstrumentNames[c] != InstrumentNames[d]
  {
    var n, m := InstrumentNames[c], InstrumentNames[d];
    assert |n| != |m| || n[0] != m[0];
  }

  // ---------------------------------------------------------------------------
  // Reference definitions over the annotations in file order
  // ---------------------------------------------------------------------------

  /** Every annotation of every frame, frame by frame. */
  function AllAnnotations(frames: Annotations): seq<Annotation> {
    if |frames| == 0 then []
    else AllAnnotations(frames[..|frames| - 1]) + frames[|frames| - 1].annotations
  }

  /** The instrument names of the annotations whose code is mapped, in order. */
  function InstrumentsOf(anns: seq<Annotation>): seq<string> {
    if |anns| == 0 then []
    else
      var a := anns[|anns| - 1];
      InstrumentsOf(anns[..|anns| - 1]) + (if a.instrument in InstrumentNames then [InstrumentNames[a.instrument]] else [])
  }

  /** The phase names of the annotations whose phase code is mapped, in order. */
  function PhasesOf(anns: seq<Annotation>): seq<string> {
    if |anns| == 0 then []
    else
      var a := anns[|anns| - 1];
      PhasesOf(anns[..|anns| - 1]) + (if a.phase in PhaseNames then [PhaseNames[a.phase]] else [])
  }

  /** The number of annotations carrying `flag`. */
  function FlagCount(anns: seq<Annotation>, flag: Flag): nat {
    if |anns| == 0 then 0
    else FlagCount(anns[..|anns| - 1], flag) + (if flag in anns[|anns| - 1].flags then 1 else 0)
  }

  /** The number of annotations whose instrument code is `code`. */
  function CodeCount(anns: seq<Annotation>, code: int): nat {
    if |anns| == 0 then 0
    else CodeCount(anns[..|anns| - 1], code) + (if anns[|anns| - 1].instrument == code then 1 else 0)
  }

  /** `Counter[key] += 1`. */
  function Increment(counter: map<string, nat>, key: string): map<string, nat> {
    counter[key := (if key in counter then counter[key] else 0) + 1]
  }

  /**
   * A `Counter` fed the keys of `s` one by one: exactly the keys that occur,
   * each with its number of occurrences.
   */
  function Tally(s: seq<string>): (r: map<string, nat>)
    ensures forall k :: k in r <==> k in s
    ensures forall k :: k in r ==> r[k] == multiset(s)[k]
  {
    if |s| == 0 then map[]
    else
      var init := s[..|s| - 1];
      assert s == init + [s[|s| - 1]];
      Increment(Tally(init), s[|s| - 1])
  }

  /**
   * The instrument counter counts codes, not names: each mapped code's name
   * is counted once per annotation with that code, and annotations with
   * missing or unknown codes add nothing.
   */
  lemma {:induction false} InstrumentTallyCountsCodes(anns: seq<Annotation>, code: int)
    requires code in InstrumentNames
    ensures multiset(InstrumentsOf(anns))[InstrumentNames[code]] == CodeCount(anns, code)
    ensures |InstrumentsOf(anns)| <= |anns|
  {
    if |anns| > 0 {
      var init := anns[..|anns| - 1];
      var a := anns[|anns| - 1];
      InstrumentTallyCountsCodes(init, code);
      if a.instrument in InstrumentNames && a.instrument != code {
        InstrumentNamesDistinct(a.instrument, code);
      }
    }
  }

  /** Annotations whose codes are all outside 0..6 leave the instrument counter empty. */
  lemma {:induction false} UnknownCodesIgnored(anns: seq<Annotation>)
    requires forall i :: 0 <= i < |anns| ==> anns[i].instrument < 0 || anns[i].instrument > 6
    ensures InstrumentsOf(anns) == []
    ensures Tally(InstrumentsOf(anns)) == map[]
  {
    if |anns| > 0 {
      UnknownCodesIgnored(anns[..|anns| - 1]);
    }
  }

  // ---------------------------------------------------------------------------
  // analyze_ground_truth
  // ---------------------------------------------------------------------------

  /** The three counters `analyze_ground_truth` keeps. */
  datatype Counters = Counters(
    instruments: map<string, nat>,
    phases: map<string, nat>,
    challenges: map<Flag, nat>)

  /** The counters after seeing `anns`, from the reference definitions. */
  function CountersOf(anns: seq<Annotation>): Counters {
    Counters(
      Tally(InstrumentsOf(anns)),
      Tally(PhasesOf(anns)),
      FlagCounts(anns))
  }

  /** The challenge counter: one entry per flag. */
  function FlagCounts(anns: seq<Annotation>): (r: map<Flag, nat>)
    ensures r.Keys == AllFlags
  {
    map f | f in AllFlags :: FlagCount(anns, f)
  }

  /** Bump the challenge counter for each flag the annotation carries. */
  function BumpFlags(m: map<Flag, nat>, a: Annotation): (r: map<Flag, nat>)
    requires m.Keys == AllFlags
    ensures r.Keys == AllFlags
  {
    map f | f in AllFlags :: m[f] + (if f in a.flags then 1 else 0)
  }

  /** What the source does for one annotation: bump the mapped instrument, the mapped phase, and each truthy flag. */
  function CountAnnotation(c: Counters, a: Annotation): Counters
    requires c.challenges.Keys == AllFlags
  {
    Counters(
      if a.instrument in InstrumentNames then Increment(c.instruments, InstrumentNames[a.instrument]) else c.instruments,
      if a.phase in PhaseNames then Increment(c.phases, PhaseNames[a.phase]) else c.phases,
      BumpFlags(c.challenges, a))
  }

  /** Feeding a `Counter` one more key increments that key. */
  lemma TallyAppend(s: seq<string>, x: string)
    ensures Tally(s + [x]) == Increment(Tally(s), x)
  {
    assert (s + [x])[..|s|] == s;
  }

  /** Feeding a `Counter` an optional key. */
  lemma TallyMaybe(s: seq<string>, s': seq<string>, x: Option<string>)
    requires s' == s + (if x.Some? then [x.value] else [])
    ensures Tally(s') == if x.Some? then Increment(Tally(s), x.value) else Tally(s)
  {
    if x.Some? {
      TallyAppend(s, x.value);
    } else {
      assert s' == s;
    }
  }

  /** The name of a code in a table, if the table maps it. */
  function NameOf(table: map<int, string>, code: int): Option<string> {
    if code in table then Some(table[code]) else None
  }

  lemma InstrumentsStep(anns: seq<Annotation>, a: Annotation)
    ensures Tally(InstrumentsOf(anns + [a])) ==
              if a.instrument in InstrumentNames then Increment(Tally(InstrumentsOf(anns)), InstrumentNames[a.instrument])
              else Tally(InstrumentsOf(anns))
  {
    assert (anns + [a])[..|anns|] == anns;
    TallyMaybe(InstrumentsOf(anns), InstrumentsOf(anns + [a]), NameOf(InstrumentNames, a.instrument));
  }

  lemma PhasesStep(anns: seq<Annotation>, a: Annotation)
    ensures Tally(PhasesOf(anns + [a])) ==
              if a.phase in PhaseNames then Increment(Tally(PhasesOf(anns)), PhaseNames[a.phase])
              else Tally(PhasesOf(anns))
  {
    assert (anns + [a])[..|anns|] == anns;
    TallyMaybe(PhasesOf(anns), PhasesOf(anns + [a]), NameOf(PhaseNames, a.phase));
  }

  lemma FlagStep(anns: seq<Annotation>, a: Annotation, f: Flag)
    ensures FlagCount(anns + [a], f) == FlagCount(anns, f) + (if f in a.flags then 1 else 0)
  {
    var s := anns + [a];
    assert s[..|s| - 1] == anns;
  }

  lemma ChallengesStep(anns: seq<Annotation>, a: Annotation)
    ensures FlagCounts(anns + [a]) == BumpFlags(FlagCounts(anns), a)
  {
    forall f | f in AllFlags
      ensures FlagCounts(anns + [a])[f] == BumpFlags(FlagCounts(anns), a)[f]
    {
      FlagStep(anns, a, f);
    }
  }

  /** Counting one more annotation agrees with the reference counters. */
  lemma CountAnnotationStep(anns: seq<Annotation>, a: Annotation)
    ensures CountersOf(anns + [a]) == CountAnnotation(CountersOf(anns), a)
  {
    InstrumentsStep(anns, a);
    PhasesStep(anns, a);
    ChallengesStep(anns, a);
  }

  /** The statistics `analyze_ground_truth` returns, without the video info. */
  datatype GtStats = GtStats(
    totalAnnotatedFrames: nat,
    instrumentsByType: map<string, nat>,
    phasesByType: map<string, nat>,
    challenges: map<Flag, nat>,
    instrumentsPerFrame: seq<nat>,
    frameNumbers: seq<int>,
    avgInstrumentsPerFrame: Option<real>)

  /** Counting the next annotation of a frame extends the counted prefix by one. */
  lemma CountPrefixStep(seen: seq<Annotation>, anns: seq<Annotation>, j: nat)
    requires j < |anns|
    ensures CountersOf(seen).challenges.Keys == AllFlags
    ensures CountersOf(seen + anns[..j + 1]) == CountAnnotation(CountersOf(seen + anns[..j]), anns[j])
  {
    CountAnnotationStep(seen + anns[..j], anns[j]);
    assert seen + anns[..j] + [anns[j]] == seen + anns[..j + 1];
  }

  /** Count the annotations of one frame into `c`. */
  method CountFrame(c: Counters, ghost seen: seq<Annotation>, anns: seq<Annotation>) returns (c': Counters)
    requires c == CountersOf(seen)
    ensures c' == CountersOf(seen + anns)
  {
    c' := c;
    var j := 0;
    assert seen + anns[..0] == seen;
    while j < |anns|
      invariant 0 <= j <= |anns|
      invariant c' == CountersOf(seen + anns[..j])
    {
      CountPrefixStep(seen, anns, j);
      c' := CountAnnotation(c', anns[j]);
      j := j + 1;
    }
    assert anns[..|anns|] == anns;
  }

  /** The annotations of the first `i + 1` frames are those of the first `i` followed by frame `i`'s. */
  lemma AllAnnotationsStep(frames: Annotations, i: nat)
    requires i < |frames|
    ensures AllAnnotations(frames[..i + 1]) == AllAnnotations(frames[..i]) + frames[i].annotations
    ensures |AllAnnotations(frames[..i + 1])| == |AllAnnotations(frames[..i])| + |frames[i].annotations|
  {
    assert frames[..i + 1][..i] == frames[..i];
  }

  /**
   * `analyze_ground_truth`: one entry per frame key (its number and its
   * annotation count), counters over all annotations, and the average only
   * when there is at least one frame.
   */
  method AnalyzeGroundTruth(frames: Annotations) returns (stats: GtStats)
    ensures stats.totalAnnotatedFrames == |frames|
    ensures |stats.frameNumbers| == |frames| && |stats.instrumentsPerFrame| == |frames|
    ensures forall i :: 0 <= i < |frames| ==>
              stats.frameNumbers[i] == frames[i].frame && stats.instrumentsPerFrame[i] == |frames[i].annotations|
    ensures stats.instrumentsByType == Tally(InstrumentsOf(AllAnnotations(frames)))
    ensures stats.phasesByType == Tally(PhasesOf(AllAnnotations(frames)))
    ensures stats.challenges.Keys == AllFlags
    ensures forall f :: f in AllFlags ==> stats.challenges[f] == FlagCount(AllAnnotations(frames), f)
    ensures stats.avgInstrumentsPerFrame.Some? <==> |frames| > 0
    ensures stats.avgInstrumentsPerFrame.Some? ==>
              stats.avgInstrumentsPerFrame.value == |AllAnnotations(frames)| as real / |frames| as real
  {
    var counters := Counters(map[], map[], map f | f in AllFlags :: 0);
    assert counters == CountersOf([]);
    var perFrame: seq<nat> := [];
    var numbers: seq<int> := [];
    var total := 0;
    ghost var seen: seq<Annotation> := [];
    var i := 0;
    while i < |frames|
      invariant 0 <= i <= |frames|
      invariant seen == AllAnnotations(frames[..i])
      invariant counters == CountersOf(seen)
      invariant |perFrame| == i && |numbers| == i
      invariant forall k :: 0 <= k < i ==> numbers[k] == frames[k].frame && perFrame[k] == |frames[k].annotations|
      invariant total == |seen|
    {
      AllAnnotationsStep(frames, i);
      numbers := numbers + [frames[i].frame];
      perFrame := perFrame + [|frames[i].annotations|];
      counters := CountFrame(counters, seen, frames[i].annotations);
      total := total + |frames[i].annotations|;
      seen := seen + frames[i].annotations;
      i := i + 1;
    }
    assert frames[..|frames|] == frames;
    var avg := if |perFrame| > 0 then Some(total as real / |perFrame| as real) else None;
    stats := GtStats(|frames|, counters.instruments, counters.phases, counters.challenges, perFrame, numbers, avg);
  }

  // ---------------------------------------------------------------------------
  // get_gt_for_frame
  // ---------------------------------------------------------------------------

  /** The ground truth reported for one frame; `list(set(...))` becomes a set. */
  datatype GtFrame = GtFrame(
    frame: int,
    instruments: set<string>,
    instrumentCount: nat,
    phase: Option<string>,
    challenges: set<string>)

  /** Challenge labels of the thorough analysis: occlusion, blood, smoke and blur. */
  const ThoroughLabels: map<Flag, string> := map[Occluded := "occlusion", Bleeding := "blood", Smoke := "smoke", Blurred := "blur"]

  /** Challenge labels of the sampled analysis: occlusion, blood and smoke. */
  const SampledLabels: map<Flag, string> := map[Occluded := "occlusion", Bleeding := "blood", Smoke := "smoke"]

  /** The annotation with a mapped instrument code names `name`. */
  predicate NamesInstrument(a: Annotation, name: string) {
    a.instrument in InstrumentNames && InstrumentNames[a.instrument] == name
  }

  /** The annotation carries a flag that `labels` renders as `label`. */
  predicate HasLabel(a: Annotation, labels: map<Flag, string>, text: string) {
    exists f :: f in labels && f in a.flags && labels[f] == text
  }

  /** The labels of an annotation's flags. */
  function LabelsOf(a: Annotation, labels: map<Flag, string>): (r: set<string>)
    ensures forall text :: text in r <==> HasLabel(a, labels, text)
  {
    set f | f in labels && f in a.flags :: labels[f]
  }

  /** The mapped instrument names of the annotations, deduplicated. */
  function InstrumentSet(anns: seq<Annotation>): (r: set<string>)
    ensures forall name :: name in r <==> exists i :: 0 <= i < |anns| && NamesInstrument(anns[i], name)
    ensures r <= InstrumentNames.Values
  {
    if |anns| == 0 then {}
    else
      var init := anns[..|anns| - 1];
      var a := anns[|anns| - 1];
      assert forall i :: 0 <= i < |init| ==> anns[i] == init[i];
      InstrumentSet(init) + (if a.instrument in InstrumentNames then {InstrumentNames[a.instrument]} else {})
  }

  /** The phase of the last annotation whose phase code is in `phases`: later annotations overwrite earlier ones. */
  function LastPhase(anns: seq<Annotation>, phases: map<int, string>): (r: Option<string>)
    ensures r.None? <==> forall i :: 0 <= i < |anns| ==> anns[i].phase !in phases
    ensures r.Some? ==> exists i :: 0 <= i < |anns| && anns[i].phase in phases && phases[anns[i].phase] == r.value
                                   && (forall j :: i < j < |anns| ==> anns[j].phase !in phases)
  {
    if |anns| == 0 then None
    else
      var init := anns[..|anns| - 1];
      var a := anns[|anns| - 1];
      assert forall i :: 0 <= i < |init| ==> anns[i] == init[i];
      if a.phase in phases then Some(phases[a.phase]) else LastPhase(init, phases)
  }

  /** The challenge labels of the annotations, deduplicated. */
  function LabelSet(anns: seq<Annotation>, labels: map<Flag, string>): (r: set<string>)
    ensures forall text :: text in r <==> exists i :: 0 <= i < |anns| && HasLabel(anns[i], labels, text)
    ensures r <= labels.Values
  {
    if |anns| == 0 then {}
    else
      var init := anns[..|anns| - 1];
      assert forall i :: 0 <= i < |init| ==> anns[i] == init[i];
      LabelSet(init, labels) + LabelsOf(anns[|anns| - 1], labels)
  }

  /** The ground truth of one frame from its annotations, as the loop of `get_gt_for_frame` builds it. */
  function Digest(frame: int, anns: seq<Annotation>, labels: map<Flag, string>): (g: GtFrame)
    ensures g.frame == frame && g.instrumentCount == |anns|
  {
    GtFrame(frame, InstrumentSet(anns), |anns|, LastPhase(anns, PhaseNames), LabelSet(anns, labels))
  }

  /** The numbers of the frame keys, in key order: `[int(f) for f in frames_data.keys()]`. */
  function FrameNumbers(frames: Annotations): (r: seq<int>)
    ensures |r| == |frames| && forall i :: 0 <= i < |frames| ==> r[i] == frames[i].frame
  {
    seq(|frames|, i requires 0 <= i < |frames| => frames[i].frame)
  }

  /** `frames_data.get(str(frame), [])`: the annotations of the first key equal to `frame`, or none. */
  function Lookup(frames: Annotations, frame: int): (r: seq<Annotation>)
    ensures (forall i :: 0 <= i < |frames| ==> frames[i].frame != frame) ==> r == []
    ensures forall i :: 0 <= i < |frames| && frames[i].frame == frame && (forall j :: 0 <= j < i ==> frames[j].frame != frame) ==>
              r == frames[i].annotations
  {
    if |frames| == 0 then []
    else if frames[0].frame == frame then frames[0].annotations
    else
      assert forall i :: 1 <= i < |frames| ==> frames[i] == frames[1..][i - 1];
      Lookup(frames[1..], frame)
  }

  function Distance(x: int, y: int): nat {
    if x >= y then x - y else y - x
  }

  /** Position `k` holds a value of least distance to `target`, and no earlier position does. */
  predicate Nearest(xs: seq<int>, target: int, k: int) {
    && 0 <= k < |xs|
    && (forall j :: 0 <= j < |xs| ==> Distance(xs[k], target) <= Distance(xs[j], target))
    && (forall j :: 0 <= j < k ==> Distance(xs[j], target) > Distance(xs[k], target))
  }

  /** `min(frames, key=lambda x: abs(x - target))`: the earliest position of least distance. */
  function ClosestIndex(frames: seq<int>, target: int): (k: nat)
    requires |frames| > 0
    ensures Nearest(frames, target, k)
  {
    if |frames| == 1 then 0
    else
      var init := frames[..|frames| - 1];
      var k := ClosestIndex(init, target);
      assert forall j :: 0 <= j < |init| ==> frames[j] == init[j];
      if Distance(frames[|frames| - 1], target) < Distance(frames[k], target) then |frames| - 1 else k
  }

  /** The nearest key is the first key with its number, so looking it up finds its own annotations. */
  lemma NearestLookup(frames: Annotations, target: int, k: int)
    requires Nearest(FrameNumbers(frames), target, k)
    ensures Lookup(frames, frames[k].frame) == frames[k].annotations
  {
    var xs := FrameNumbers(frames);
    forall j | 0 <= j < k ensures frames[j].frame != frames[k].frame {
      assert Distance(xs[j], target) > Distance(xs[k], target);
    }
  }

  /**
   * `get_gt_for_frame` of the thorough analysis: nothing (`{}`) without
   * annotated frames; otherwise the ground truth of the closest annotated
   * frame, with the four thorough challenge labels.
   */
  function GtClosest(frames: Annotations, frame: int): (r: Option<GtFrame>)
    ensures r.None? <==> |frames| == 0
    ensures r.Some? ==> (exists k :: Nearest(FrameNumbers(frames), frame, k) &&
                                     r.value == Digest(frames[k].frame, frames[k].annotations, ThoroughLabels))
    ensures r.Some? ==> r.value.challenges <= {"occlusion", "blood", "smoke", "blur"}
  {
    if |frames| == 0 then None
    else
      var k := ClosestIndex(FrameNumbers(frames), frame);
      NearestLookup(frames, frame, k);
      Some(Digest(frames[k].frame, Lookup(frames, frames[k].frame), ThoroughLabels))
  }

  /**
   * `get_gt_for_frame` of the sampled analysis: the ground truth of exactly
   * `frame`, empty when the frame has no annotations, with the three sampled
   * challenge labels.
   */
  function GtExact(frames: Annotations, frame: int): (r: GtFrame)
    ensures r.frame == frame
    ensures r == Digest(frame, Lookup(frames, frame), SampledLabels)
    ensures r.challenges <= {"occlusion", "blood", "smoke"}
    ensures (forall i :: 0 <= i < |frames| ==> frames[i].frame != frame) ==>
              r.instrumentCount == 0 && r.instruments == {} && r.phase.None? && r.challenges == {}
  {
    var anns := Lookup(frames, frame);
    Digest(frame, anns, SampledLabels)
  }
}
