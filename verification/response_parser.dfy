/**
 * The lenient extraction of a JSON object from free-form model text
 * (`_parse_scene_analysis`, `_parse_strategy`, `_parse_recovery` in
 * src/agent.py): search `\{.*\}` with DOTALL, decode the match, and on any
 * failure return a default chosen by the call site.
 */
module ResponseParser {

  import opened Wrappers
  import opened Json

  /** `json.loads`, left uninterpreted: a candidate text decodes to a dictionary or fails. */
  type Decoder = string -> Option<Obj>

  /** Position of the first occurrence of `c` in `s`. */
  function FirstIndex(s: string, c: char): (r: Option<nat>)
    ensures r.Some? ==> r.value < |s| && s[r.value] == c
    ensures r.Some? ==> forall k :: 0 <= k < r.value ==> s[k] != c
    ensures r.None? ==> forall k :: 0 <= k < |s| ==> s[k] != c
  {
    if |s| == 0 then None
    else if s[0] == c then Some(0)
    else match FirstIndex(s[1..], c)
      case None => None
      case Some(k) => Some(k + 1)
  }

  /** Position of the last occurrence of `c` in `s`. */
  function LastIndex(s: string, c: char): (r: Option<nat>)
    ensures r.Some? ==> r.value < |s| && s[r.value] == c
    ensures r.Some? ==> forall k :: r.value < k < |s| ==> s[k] != c
    ensures r.None? ==> forall k :: 0 <= k < |s| ==> s[k] != c
  {
    if |s| == 0 then None
    else if s[|s| - 1] == c then Some(|s| - 1)
    else LastIndex(s[..|s| - 1], c)
  }

  /**
   * `s[i..j + 1]` is what the greedy pattern `\{.*\}` matches under DOTALL:
   * the leftmost match starts at the first `{`, and greediness extends it to
   * the last `}`.
   */
  predicate GreedyMatch(s: string, i: int, j: int) {
    && 0 <= i < j < |s|
    && s[i] == '{' && s[j] == '}'
    && (forall k :: 0 <= k < i ==> s[k] != '{')
    && (forall k :: j < k < |s| ==> s[k] != '}')
  }

  /** There is at most one greedy match. */
  lemma GreedyMatchUnique(s: string, i: int, j: int, i': int, j': int)
    requires GreedyMatch(s, i, j) && GreedyMatch(s, i', j')
    ensures i == i' && j == j'
  {
  }

  /**
   * The text matched by `re.search(r'\{.*\}', text, re.DOTALL)`; there is a
   * match exactly when some `}` follows some `{`.
   */
  function BraceSpan(s: string): (r: Option<string>)
    ensures r.Some? <==> exists i, j :: 0 <= i < j < |s| && s[i] == '{' && s[j] == '}'
    ensures r.Some? ==> exists i, j :: GreedyMatch(s, i, j) && r.value == s[i..j + 1]
    ensures r.Some? ==> |r.value| >= 2 && r.value[0] == '{' && r.value[|r.value| - 1] == '}'
  {
    match (FirstIndex(s, '{'), LastIndex(s, '}'))
    case (Some(i), Some(j)) =>
      if i < j then
        assert GreedyMatch(s, i, j);
        assert s[i..j + 1][0] == s[i];
        assert s[i..j + 1][j - i] == s[j];
        Some(s[i..j + 1])
      else
        None
    case _ => None
  }

  /**
   * Extraction followed by decoding; every failure (no brace pair, or a
   * candidate that does not decode) yields the call site's default.
   */
  function Parse(text: string, decode: Decoder, default: Obj): (r: Obj)
    ensures BraceSpan(text).None? ==> r == default
    ensures BraceSpan(text).Some? && decode(BraceSpan(text).value).Some? ==>
              r == decode(BraceSpan(text).value).value
    ensures BraceSpan(text).Some? && decode(BraceSpan(text).value).None? ==> r == default
  {
    match BraceSpan(text)
    case None => default
    case Some(candidate) => decode(candidate).GetOr(default)
  }

  /** `text[:n]`. */
  function Prefix(text: string, n: nat): (r: string)
    ensures |r| == if |text| < n then |text| else n
    ensures r <= text
  {
    if |text| <= n then text else text[..n]
  }

  /** Default of `_parse_scene_analysis`: the raw reply is kept, truncated to 500 characters. */
  function SceneDefault(text: string): Obj {
    map[
      "instruments" := Array([]),
      "visibility_score" := Int(7),
      "scene_challenges" := Array([]),
      "estimated_phase" := Str("unknown"),
      "raw_response" := Str(Prefix(text, 500))
    ]
  }

  /** Default of `_parse_strategy`. */
  const StrategyDefault: Obj := map[
    "detector" := Str("yolov8_surgical"),
    "tracker" := Str("byte_track"),
    "reasoning" := Str("Default selection")
  ]

  /** Default of `_parse_recovery`. */
  const RecoveryDefault: Obj := map[
    "action" := Str("reinitialize"),
    "parameters" := Object(map[]),
    "reasoning" := Str("Default recovery")
  ]

  function ParseSceneAnalysis(text: string, decode: Decoder): Obj {
    Parse(text, decode, SceneDefault(text))
  }

  function ParseStrategy(text: string, decode: Decoder): Obj {
    Parse(text, decode, StrategyDefault)
  }

  function ParseRecovery(text: string, decode: Decoder): Obj {
    Parse(text, decode, RecoveryDefault)
  }

  /** Text holds no `{` at all. */
  predicate NoOpenBrace(s: string) {
    forall k :: 0 <= k < |s| ==> s[k] != '{'
  }

  /** Text holds no `}` at all. */
  predicate NoCloseBrace(s: string) {
    forall k :: 0 <= k < |s| ==> s[k] != '}'
  }

  /**
   * An object embedded in prose is found exactly: when the text before it has
   * no `{` and the text after it has no `}`, the candidate is the object.
   */
  lemma {:induction false} EmbeddedObjectIsCandidate(before: string, obj: string, after: string)
    requires |obj| >= 2 && obj[0] == '{' && obj[|obj| - 1] == '}'
    requires NoOpenBrace(before) && NoCloseBrace(after)
    ensures BraceSpan(before + obj + after) == Some(obj)
  {
    var s := before + obj + after;
    var i, j := |before|, |before| + |obj| - 1;
    assert GreedyMatch(s, i, j) by {
      assert s[i] == obj[0] && s[j] == obj[|obj| - 1];
      forall k | 0 <= k < i ensures s[k] != '{' { assert s[k] == before[k]; }
      forall k | j < k < |s| ensures s[k] != '}' { assert s[k] == after[k - |before| - |obj|]; }
    }
    var r := BraceSpan(s);
    var i', j' :| GreedyMatch(s, i', j') && r.value == s[i'..j' + 1];
    GreedyMatchUnique(s, i, j, i', j');
    assert s[i..j + 1] == obj;
  }

  /** With no `{` in the reply, the strategy default comes back unchanged, whatever the decoder. */
  lemma NoBraceGivesStrategyDefault(text: string, decode: Decoder)
    requires NoOpenBrace(text)
    ensures ParseStrategy(text, decode) == StrategyDefault
  {
  }

  /** The worked example of a reply with prose around an object. */
  lemma ProseAroundStrategyObject(decode: Decoder)
    ensures var obj := "{" + "\"detector\": \"byte_track\", \"tracker\": \"deep_sort\", \"reasoning\": \"ok\"" + "}";
            var reply := "Sure! Here is the result: " + obj;
            decode(obj).Some? ==> ParseStrategy(reply, decode) == decode(obj).value
  {
    var obj := "{" + "\"detector\": \"byte_track\", \"tracker\": \"deep_sort\", \"reasoning\": \"ok\"" + "}";
    var before := "Sure! Here is the result: ";
    assert NoOpenBrace(before);
    assert obj[0] == '{' && obj[|obj| - 1] == '}';
    assert before + obj == before + obj + "";
    EmbeddedObjectIsCandidate(before, obj, "");
  }
}
