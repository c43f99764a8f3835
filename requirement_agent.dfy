/** agents/requirement_agent.py: the fenced-JSON extraction, the tolerant
    parse and the six defaulted requirement keys. */
module RequirementAgent {
  import opened Wrappers
  import opened Json
  import opened Text

  /** The keys `run_requirement_agent` guarantees in `parsed_json`, in the
      order of its `setdefault` calls. */
  const RequirementKeys: seq<string> := ["project_name", "functional_requirements",
    "non_functional_requirements", "actors", "assumptions", "modules"]

  /** The same keys as a set. */
  const RequirementKeySet: set<string> := {"project_name", "functional_requirements",
    "non_functional_requirements", "actors", "assumptions", "modules"}

  function DefaultValue(key: string): JValue {
    if key == "project_name" then JStr("Unknown Project") else JList([])
  }

  const EmptyInputMessage: string := "Empty input: problem_description is required."

  /** A ```` ```json ```` opening at `i` and a ```` ``` ```` closing at `j`. */
  predicate FenceAt(text: string, i: int, j: int) {
    OccursAt(text, "```json", i) && i + 7 <= j && OccursAt(text, "```", j)
  }

  /** `text` holds an opening fence with a closing fence after it. */
  ghost predicate HasFencedJson(text: string) {
    exists i, j :: FenceAt(text, i, j)
  }

  /** The block `re.search(r"```json(.*?)```", text, re.DOTALL)` finds: the
      first opening fence, and the first closing fence after it. */
  ghost predicate FirstFence(text: string, i: int, j: int) {
    && FenceAt(text, i, j)
    && (forall k :: 0 <= k < i ==> !OccursAt(text, "```json", k))
    && (forall k :: i + 7 <= k < j ==> !OccursAt(text, "```", k))
  }

  /** `extract_json_from_text(text)`. */
  function ExtractJsonFromText(text: string): (r: string)
    ensures !HasFencedJson(text) ==> r == "{}"
    ensures forall i, j :: FirstFence(text, i, j) ==> r == Strip(text[i + 7..j])
  {
    match IndexOf(text, "```json", 0)
    case None =>
      NoOpenNoFence(text);
      "{}"
    case Some(i) =>
      match IndexOf(text, "```", i + 7)
      case None =>
        NoCloseNoFence(text, i);
        "{}"
      case Some(j) =>
        FirstFenceFound(text, i, j);
        assert forall i', j' :: FirstFence(text, i', j') ==> i' == i && j' == j by {
          forall i', j' | FirstFence(text, i', j') ensures i' == i && j' == j {
            FirstFenceUnique(text, i, j, i', j');
          }
        }
        Strip(text[i + 7..j])
  }

  /** There is at most one first fenced block. */
  lemma FirstFenceUnique(text: string, i: int, j: int, i': int, j': int)
    requires FirstFence(text, i, j) && FirstFence(text, i', j')
    ensures i == i' && j == j'
  {
  }

  /** Without an opening fence there is no fenced block. */
  lemma NoOpenNoFence(text: string)
    requires forall k :: 0 <= k ==> !OccursAt(text, "```json", k)
    ensures !HasFencedJson(text)
    ensures forall i', j' :: !FirstFence(text, i', j')
  {
  }

  /** The first opening fence and the first closing fence after it delimit
      the first fenced block. */
  lemma FirstFenceFound(text: string, i: nat, j: nat)
    requires OccursAt(text, "```json", i) && forall k :: 0 <= k < i ==> !OccursAt(text, "```json", k)
    requires i + 7 <= j && OccursAt(text, "```", j)
    requires forall k :: i + 7 <= k < j ==> !OccursAt(text, "```", k)
    ensures FirstFence(text, i, j) && HasFencedJson(text)
  {
    assert FenceAt(text, i, j);
  }

  /** With the first opening fence at `i` and no closing fence after it,
      no later opening fence has one either. */
  lemma NoCloseNoFence(text: string, i: nat)
    requires OccursAt(text, "```json", i)
    requires forall k :: 0 <= k < i ==> !OccursAt(text, "```json", k)
    requires forall k :: i + 7 <= k ==> !OccursAt(text, "```", k)
    ensures !HasFencedJson(text)
    ensures forall i', j' :: !FirstFence(text, i', j')
  {
    forall i', j' | OccursAt(text, "```json", i') && i' + 7 <= j'
      ensures !OccursAt(text, "```", j')
    {
      assert i <= i';
    }
  }

  /** A fenced block is returned without surrounding whitespace. */
  lemma ExtractedBlockTrimmed(text: string)
    requires HasFencedJson(text)
    ensures var r := ExtractJsonFromText(text); r != [] ==> !IsSpace(r[0]) && !IsSpace(r[|r| - 1])
  {
  }

  /** `safe_parse_json(json_text)`; `loads` is `json.loads`, None where it
      raises JSONDecodeError. */
  function SafeParseJson(jsonText: string, loads: string -> Option<JValue>): (r: JValue)
    ensures loads(jsonText).Some? ==> r == loads(jsonText).value
    ensures loads(jsonText).None? ==> r == JObj(map[])
  {
    loads(jsonText).GetOr(JObj(map[]))
  }

  /** What `run_requirement_agent` returns. */
  datatype RequirementResult = RequirementResult(readableText: string, parsedJson: map<string, JValue>)

  /** The dict the pipelines store under `requirements`. */
  function ToDict(r: RequirementResult): (d: map<string, JValue>)
    ensures d.Keys == {"readable_text", "parsed_json"}
    ensures d["parsed_json"] == JObj(r.parsedJson)
  {
    map["readable_text" := JStr(r.readableText), "parsed_json" := JObj(r.parsedJson)]
  }

  /** `filled` is `parsed` after the six `setdefault` calls. */
  ghost predicate FilledFrom(filled: map<string, JValue>, parsed: map<string, JValue>) {
    && (forall k :: k in filled <==> k in parsed || k in RequirementKeySet)
    && (forall k :: k in parsed ==> filled[k] == parsed[k])
    && (forall k :: k in RequirementKeySet && k !in parsed ==> filled[k] == DefaultValue(k))
  }

  /** `m.setdefault(key, value)`: `key` keeps its value when present and gets
      `value` otherwise; no other key changes. */
  function SetDefault(m: map<string, JValue>, key: string, value: JValue): (r: map<string, JValue>)
    ensures forall k :: k in r <==> k in m || k == key
    ensures r[key] == (if key in m then m[key] else value)
    ensures forall k :: k in m ==> r[k] == m[k]
  {
    if key in m then m else m[key := value]
  }

  /** The six `setdefault` calls on the parsed dict. */
  method FillDefaults(parsed: map<string, JValue>) returns (filled: map<string, JValue>)
    ensures FilledFrom(filled, parsed)
  {
    filled := SetDefault(parsed, "project_name", JStr("Unknown Project"));
    ghost var afterName := filled;
    filled := SetDefault(filled, "functional_requirements", JList([]));
    filled := SetDefault(filled, "non_functional_requirements", JList([]));
    filled := SetDefault(filled, "actors", JList([]));
    filled := SetDefault(filled, "assumptions", JList([]));
    filled := SetDefault(filled, "modules", JList([]));
    assert filled["project_name"] == afterName["project_name"];
    forall k | k in RequirementKeySet && k !in parsed
      ensures filled[k] == DefaultValue(k)
    {
      if k != "project_name" {
        assert DefaultValue(k) == JList([]);
      }
    }
  }

  /** The dict returned from the `except` branch, with `str(e)` as `raw_response`. */
  function Fallback(message: string): (r: RequirementResult)
    ensures r.readableText == ""
    ensures r.parsedJson.Keys == RequirementKeySet + {"raw_response"}
    ensures forall k :: k in RequirementKeySet ==> r.parsedJson[k] == DefaultValue(k)
    ensures r.parsedJson["raw_response"] == JStr(message)
  {
    RequirementResult("", map[
      "project_name" := JStr("Unknown Project"),
      "functional_requirements" := JList([]),
      "non_functional_requirements" := JList([]),
      "actors" := JList([]),
      "assumptions" := JList([]),
      "modules" := JList([]),
      "raw_response" := JStr(message)])
  }

  /** `run_requirement_agent(problem_description)`. `generate` is the model
      call on the stripped description (loading and formatting the prompt,
      `get_llm`, `invoke`): the returned text or the exception raised.
      Nothing escapes: every failure becomes the fallback dict. */
  method RunRequirementAgent(problem: string, generate: string -> Outcome<string>, loads: string -> Option<JValue>)
    returns (r: RequirementResult)
    ensures forall k :: k in RequirementKeySet ==> k in r.parsedJson
    ensures Strip(problem) == [] ==> r == Fallback(EmptyInputMessage)
    ensures Strip(problem) != [] && generate(Strip(problem)).Raise? ==> r == Fallback(generate(Strip(problem)).msg)
    ensures Strip(problem) != [] && generate(Strip(problem)).Ok? ==>
              var text := generate(Strip(problem)).value;
              var parsed := SafeParseJson(ExtractJsonFromText(text), loads);
              && (parsed.JObj? ==> r.readableText == Strip(text) && FilledFrom(r.parsedJson, parsed.fields))
              && (!parsed.JObj? ==> r == Fallback(NoAttribute(parsed, "setdefault")))
  {
    if Strip(problem) == [] {
      return Fallback(EmptyInputMessage);
    }
    var generated := generate(Strip(problem));
    if generated.Raise? {
      return Fallback(generated.msg);
    }
    var text := generated.value;
    var parsed := SafeParseJson(ExtractJsonFromText(text), loads);
    if !parsed.JObj? {
      return Fallback(NoAttribute(parsed, "setdefault"));
    }
    var filled := FillDefaults(parsed.fields);
    r := RequirementResult(Strip(text), filled);
  }

  /** Empty or blank input never reaches the model and yields the fallback
      with empty readable text. */
  lemma BlankInputFallback(problem: string)
    requires forall k :: 0 <= k < |problem| ==> IsSpace(problem[k])
    ensures Strip(problem) == []
  {
    StripAllDropped(problem, IsSpace);
  }

  /** A reply without a fenced block parses `"{}"`: every key takes its default. */
  lemma NoFenceAllDefaults(text: string, loads: string -> Option<JValue>, filled: map<string, JValue>)
    requires !HasFencedJson(text) && loads("{}") == Some(JObj(map[]))
    requires FilledFrom(filled, SafeParseJson(ExtractJsonFromText(text), loads).fields)
    ensures filled.Keys == RequirementKeySet
    ensures forall k :: k in RequirementKeySet ==> filled[k] == DefaultValue(k)
  {
  }
}
