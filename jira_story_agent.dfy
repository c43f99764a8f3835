/** agents/jira_story_agent.py: user stories asked of the model as JSON,
    wrapped or replaced by a draft when the reply is not a list, and
    normalised to four fields. */
module JiraStoryAgent {
  import opened Wrappers
  import opened Json
  import opened Config

  /** A story after normalisation; every field is whatever JSON value the
      model supplied or its default. */
  datatype Story = Story(summary: JValue, description: JValue, bdd: JValue, labels: JValue)

  const DefaultLabels: JValue := JList([JStr("auto"), JStr("sdlc")])

  /** The dict a story is returned and saved as. */
  function StoryJson(s: Story): (v: JValue)
    ensures v.JObj? && v.fields.Keys == {"summary", "description", "bdd", "labels"}
  {
    JObj(map["summary" := s.summary, "description" := s.description, "bdd" := s.bdd, "labels" := s.labels])
  }

  /** The four `s.get(...)` calls of the normalisation loop: a field the
      model gave is kept as it is, even when empty; a missing description
      falls back to the BDD text. */
  function NormalizeStory(m: map<string, JValue>): (s: Story)
    ensures s.summary == (if "summary" in m then m["summary"] else JStr("Untitled Story"))
    ensures s.description == (if "description" in m then m["description"]
                              else if "bdd" in m then m["bdd"] else JStr("No description provided."))
    ensures s.bdd == (if "bdd" in m then m["bdd"] else JStr(""))
    ensures s.labels == (if "labels" in m then m["labels"] else DefaultLabels)
  {
    Story(Lookup(m, "summary", JStr("Untitled Story")),
          Lookup(m, "description", Lookup(m, "bdd", JStr("No description provided."))),
          Lookup(m, "bdd", JStr("")),
          Lookup(m, "labels", DefaultLabels))
  }

  /** Normalising a story that is already normalised changes nothing. */
  lemma NormalizeIdempotent(s: Story)
    ensures NormalizeStory(StoryJson(s).fields) == s
  {
  }

  /** The single story used when the reply is not JSON. */
  function DraftStory(text: string): JValue {
    JObj(map["summary" := JStr("Draft SDLC Story"), "description" := JStr(text),
             "bdd" := JStr(text), "labels" := DefaultLabels])
  }

  /** The parse step: a JSON list is the list of stories, any other JSON
      value is one story, and text that is not JSON becomes the draft.
      `loads` is `json.loads`, None where it raises JSONDecodeError. */
  function ParseStories(text: string, loads: string -> Option<JValue>): (stories: seq<JValue>)
    ensures loads(text).None? ==> stories == [DraftStory(text)]
    ensures loads(text).Some? && loads(text).value.JList? ==> stories == loads(text).value.items
    ensures loads(text).Some? && !loads(text).value.JList? ==> stories == [loads(text).value]
  {
    match loads(text)
    case None => [DraftStory(text)]
    case Some(JList(items)) => items
    case Some(v) => [v]
  }

  /** A reply that is not JSON yields one story carrying the reply as both
      its description and its BDD text. */
  lemma DraftStoryNormalized(text: string)
    ensures NormalizeStory(DraftStory(text).fields)
            == Story(JStr("Draft SDLC Story"), JStr(text), JStr(text), DefaultLabels)
  {
  }

  ghost predicate AllDicts(xs: seq<JValue>) {
    forall i :: 0 <= i < |xs| ==> xs[i].JObj?
  }

  /** Every story normalised, in order. */
  function NormalizedAll(xs: seq<JValue>): (r: seq<Story>)
    requires AllDicts(xs)
    ensures |r| == |xs|
    ensures forall i :: 0 <= i < |xs| ==> r[i] == NormalizeStory(xs[i].fields)
  {
    if xs == [] then [] else NormalizedAll(xs[..|xs| - 1]) + [NormalizeStory(xs[|xs| - 1].fields)]
  }

  /** The normalisation loop. `s.get` on an element that is not a dict
      raises AttributeError, which ends the whole agent: None. */
  method NormalizeStories(stories: seq<JValue>) returns (r: Option<seq<Story>>)
    ensures r.Some? <==> AllDicts(stories)
    ensures r.Some? ==> r.value == NormalizedAll(stories)
  {
    var cleaned: seq<Story> := [];
    var i := 0;
    while i < |stories|
      invariant 0 <= i <= |stories|
      invariant AllDicts(stories[..i])
      invariant cleaned == NormalizedAll(stories[..i])
    {
      if !stories[i].JObj? {
        return None;
      }
      assert stories[..i + 1][..i] == stories[..i];
      cleaned := cleaned + [NormalizeStory(stories[i].fields)];
      i := i + 1;
    }
    assert stories[..i] == stories;
    return Some(cleaned);
  }

  /** `run_jira_story_agent(requirements)`. `generate` is the model call on
      the prompt built from `json.dumps(requirements)` (prompt loading,
      `get_llm()`, `invoke`): the reply text or the exception raised.
      `settings` is the module-level settings dict; `saved` is whether
      `ensure_dirs()` and saving `jira_stories.json` succeeded. Every
      exception ends in `[]`. */
  method RunJiraStoryAgent(requirements: JValue, generate: JValue -> Outcome<string>,
                           loads: string -> Option<JValue>, settings: map<string, JValue>, saved: bool)
    returns (stories: seq<Story>)
    ensures generate(requirements).Raise? ==> stories == []
    ensures generate(requirements).Ok? ==>
              var parsed := ParseStories(generate(requirements).value, loads);
              var flag := FeatureFlag(settings, "save_intermediate_json", true);
              && (!AllDicts(parsed) || flag.Raise? || (flag.value && !saved) ==> stories == [])
              && (AllDicts(parsed) && flag.Ok? && (!flag.value || saved) ==> stories == NormalizedAll(parsed))
  {
    var reply := generate(requirements);
    if reply.Raise? {
      return [];
    }
    var parsed := ParseStories(reply.value, loads);
    var cleaned := NormalizeStories(parsed);
    if cleaned.None? {
      return [];
    }
    var flag := FeatureFlag(settings, "save_intermediate_json", true);
    if flag.Raise? || (flag.value && !saved) {
      return [];
    }
    stories := cleaned.value;
  }
}
