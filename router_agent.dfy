/**
 * `run_sequential_pipeline`: the five stages in a fixed order, writing into
 * one results dictionary. The requirements stage is critical; the others fall
 * back to `""` or `[]` when they raise; SRS and posting are gated by feature
 * flags; every exit carries a usage snapshot taken from the tracker.
 */
module RouterAgent {
  import opened Wrappers
  import opened Json
  import opened Config
  import opened Llm
  import opened Stages
  import RequirementAgent

  /** The message of the exception raised when the requirements carry an `"error"` key. */
  const RequirementFailed := "Requirement extraction failed"

  /** The results dictionary before `token_summary` is attached, and the stages that were called. */
  datatype Run = Run(results: map<string, JValue>, ran: seq<Stage>)

  /** What a failed run returns: the keys written so far plus `error`. */
  function Aborted(results: map<string, JValue>, msg: string, ran: seq<Stage>): Run {
    Run(results["error" := JStr(msg)], ran)
  }

  /**
   * The run as a value. `req` is the requirements dict, which the flow, SRS and
   * story stages read back from the results; the posting stage reads the
   * stories the story stage wrote.
   */
  function SequentialRun(userInput: string, agents: Agents, settings: map<string, JValue>): (r: Run)
    ensures r.ran != [] && r.ran[0] == Requirements
    ensures "token_summary" !in r.results
  {
    match agents.requirement(userInput)
    case Raise(e) => Aborted(map[], e, [Requirements])
    case Ok(req) =>
      if "error" in req then Aborted(map["requirements" := JObj(req)], RequirementFailed, [Requirements])
      else FromFlow(req, agents, settings, map["requirements" := JObj(req)])
  }

  /** The run once the requirements are stored in `written`: flow, then the SRS flag and stage. */
  function FromFlow(req: map<string, JValue>, agents: Agents, settings: map<string, JValue>, written: map<string, JValue>): (r: Run)
    requires "token_summary" !in written
    ensures r.ran == [Requirements, Flow] || r.ran == [Requirements, Flow, Stories] || r.ran == [Requirements, Flow, Stories, Post]
         || r.ran == [Requirements, Flow, Srs, Stories] || r.ran == [Requirements, Flow, Srs, Stories, Post]
    ensures "diagram_path" in r.results && r.results["diagram_path"] == JStr(agents.flow(JObj(req)).GetOr(""))
    ensures "requirements" in written ==> "requirements" in r.results && r.results["requirements"] == written["requirements"]
    ensures "token_summary" !in r.results
  {
    var r1 := written["diagram_path" := JStr(agents.flow(JObj(req)).GetOr(""))];
    match FeatureFlag(settings, "enable_pdf_gen", true)
    case Raise(e) => Aborted(r1, e, [Requirements, Flow])
    case Ok(pdf) =>
      if pdf then FromStories(req, agents, settings, r1["srs_path" := JStr(agents.srs(JObj(req)).GetOr(""))], [Requirements, Flow, Srs])
      else FromStories(req, agents, settings, r1, [Requirements, Flow])
  }

  /** The run from the story stage on: stories, then the posting flag and stage. */
  function FromStories(req: map<string, JValue>, agents: Agents, settings: map<string, JValue>,
                       written: map<string, JValue>, ran: seq<Stage>): (r: Run)
    requires "token_summary" !in written
    ensures r.ran == ran + [Stories] || r.ran == ran + [Stories, Post]
    ensures forall k :: k in written && k != "jira_stories" && k != "jira_created" && k != "error" ==>
              k in r.results && r.results[k] == written[k]
    ensures "token_summary" !in r.results
  {
    var stories := agents.stories(JObj(req)).GetOr([]);
    var r3 := written["jira_stories" := JList(stories)];
    match FeatureFlag(settings, "enable_jira_post", false)
    case Raise(e) => Aborted(r3, e, ran + [Stories])
    case Ok(post) =>
      if post then Run(r3["jira_created" := JList(agents.post(stories).GetOr([]))], ran + [Stories, Post])
      else Run(r3, ran + [Stories])
  }

  /**
   * Stages are called strictly in the order requirements → flow → SRS →
   * stories → post: only SRS and posting are ever skipped in the middle, and a
   * run cut short stops after requirements or after flow.
   */
  lemma RunOrder(userInput: string, agents: Agents, settings: map<string, JValue>)
    ensures var ran := SequentialRun(userInput, agents, settings).ran;
      || ran == [Requirements]
      || ran == [Requirements, Flow]
      || ran == [Requirements, Flow, Stories]
      || ran == [Requirements, Flow, Stories, Post]
      || ran == [Requirements, Flow, Srs, Stories]
      || ran == [Requirements, Flow, Srs, Stories, Post]
  {
    if PastRequirements(userInput, agents) {
      ContinuesFromFlow(userInput, agents, settings);
    }
  }

  /**
   * The pipeline itself. The dictionary is filled in place, key by key; an
   * exception that escapes a stage ends the run through the single handler,
   * which adds `error` to the keys already written. Both exits then attach the
   * usage snapshot read from the tracker at that moment.
   */
  method RunSequentialPipeline(tracker: TokenTracker, userInput: string, agents: Agents, settings: map<string, JValue>)
    returns (results: map<string, JValue>, ran: seq<Stage>)
    requires tracker.Valid()
    modifies tracker
    ensures tracker.Valid() && tracker.callback == old(tracker.callback)
    ensures ran == SequentialRun(userInput, agents, settings).ran
    ensures results == SequentialRun(userInput, agents, settings).results["token_summary" := SummaryJson(tracker.Summary())]
    ensures tracker.agents == old(tracker.agents) + UsageOf(ran, agents.usage)
    ensures tracker.notified == old(tracker.notified) + Notices(tracker.callback, old(tracker.agents), UsageOf(ran, agents.usage))
  {
    results := map[];
    ran := [];

    ghost var before, notes := tracker.agents, tracker.notified;
    assert notes + Notices(tracker.callback, before, UsageOf(ran, agents.usage)) == notes;
    ran := LogStage(tracker, agents.usage, before, notes, ran, Requirements);
    var requirement := agents.requirement(userInput);
    if requirement.Raise? {
      results := results["error" := JStr(requirement.msg)];
    } else {
      results := results["requirements" := JObj(requirement.value)];
      if "error" in requirement.value {
        results := results["error" := JStr(RequirementFailed)];
      } else {
        results, ran := RunFromFlow(tracker, requirement.value, agents, settings, before, notes, results, ran);
      }
    }

    results := results["token_summary" := SummaryJson(tracker.Summary())];
  }

  /** The flow stage, the SRS flag and the SRS stage, then the rest of the run. */
  method RunFromFlow(tracker: TokenTracker, req: map<string, JValue>, agents: Agents, settings: map<string, JValue>,
                     ghost before: seq<AgentEntry>, ghost notes: seq<(Observer, UsageSummary)>,
                     written: map<string, JValue>, ran0: seq<Stage>)
    returns (results: map<string, JValue>, ran: seq<Stage>)
    requires Logged(tracker, agents.usage, before, notes, ran0)
    requires "token_summary" !in written && ran0 == [Requirements]
    requires "requirements" in written && written["requirements"] == JObj(req)
    modifies tracker
    ensures tracker.callback == old(tracker.callback)
    ensures Run(results, ran) == FromFlow(req, agents, settings, written)
    ensures Logged(tracker, agents.usage, before, notes, ran)
  {
    var requirements := written["requirements"];
    ran := LogStage(tracker, agents.usage, before, notes, ran0, Flow);
    var diagram := agents.flow(requirements);
    results := written["diagram_path" := JStr(diagram.GetOr(""))];

    var pdf := FeatureFlag(settings, "enable_pdf_gen", true);
    if pdf.Raise? {
      FromFlowAborts(req, agents, settings, written);
      results := results["error" := JStr(pdf.msg)];
      return;
    }
    FromFlowContinues(req, agents, settings, written, pdf.value);
    // `settings["features"]` has been read as a dict, so the posting flag below cannot raise.
    assert FeatureFlag(settings, "enable_jira_post", false).Ok?;
    assert requirements == JObj(req) && ran == [Requirements, Flow];
    if pdf.value {
      ran := LogStage(tracker, agents.usage, before, notes, ran, Srs);
      var srs := agents.srs(requirements);
      results := results["srs_path" := JStr(srs.GetOr(""))];
      assert ran == [Requirements, Flow, Srs];
    }
    results, ran := RunFromStories(tracker, req, agents, settings, before, notes, results, ran);
  }

  /** A failing SRS flag lookup ends the run after the flow stage. */
  lemma FromFlowAborts(req: map<string, JValue>, agents: Agents, settings: map<string, JValue>, written: map<string, JValue>)
    requires "token_summary" !in written
    requires FeatureFlag(settings, "enable_pdf_gen", true).Raise?
    ensures FromFlow(req, agents, settings, written) ==
      Aborted(written["diagram_path" := JStr(agents.flow(JObj(req)).GetOr(""))],
              FeatureFlag(settings, "enable_pdf_gen", true).msg, [Requirements, Flow])
  {
  }

  /** Once the SRS flag is read, the run goes on with the story stage. */
  lemma FromFlowContinues(req: map<string, JValue>, agents: Agents, settings: map<string, JValue>,
                          written: map<string, JValue>, pdf: bool)
    requires "token_summary" !in written
    requires FeatureFlag(settings, "enable_pdf_gen", true) == Ok(pdf)
    ensures var r1 := written["diagram_path" := JStr(agents.flow(JObj(req)).GetOr(""))];
      FromFlow(req, agents, settings, written) ==
        if pdf then FromStories(req, agents, settings, r1["srs_path" := JStr(agents.srs(JObj(req)).GetOr(""))], [Requirements, Flow, Srs])
        else FromStories(req, agents, settings, r1, [Requirements, Flow])
  {
  }

  /** The story stage, the posting flag and the posting stage. */
  method RunFromStories(tracker: TokenTracker, req: map<string, JValue>, agents: Agents, settings: map<string, JValue>,
                        ghost before: seq<AgentEntry>, ghost notes: seq<(Observer, UsageSummary)>,
                        written: map<string, JValue>, ran0: seq<Stage>)
    returns (results: map<string, JValue>, ran: seq<Stage>)
    requires Logged(tracker, agents.usage, before, notes, ran0)
    requires "token_summary" !in written
    requires "requirements" in written && written["requirements"] == JObj(req)
    requires FeatureFlag(settings, "enable_jira_post", false).Ok?
    modifies tracker
    ensures tracker.callback == old(tracker.callback)
    ensures Run(results, ran) == FromStories(req, agents, settings, written, ran0)
    ensures Logged(tracker, agents.usage, before, notes, ran)
  {
    results, ran := written, ran0;
    ran := LogStage(tracker, agents.usage, before, notes, ran, Stories);
    var stories := agents.stories(results["requirements"]);
    results := results["jira_stories" := JList(stories.GetOr([]))];

    var post := FeatureFlag(settings, "enable_jira_post", false);
    if post.value {
      ran := LogStage(tracker, agents.usage, before, notes, ran, Post);
      var created := agents.post(results["jira_stories"].items);
      results := results["jira_created" := JList(created.GetOr([]))];
    }
  }

  /** A raising requirements stage stops the run before any other stage: only `error` is written. */
  lemma RequirementRaiseAborts(userInput: string, agents: Agents, settings: map<string, JValue>)
    requires agents.requirement(userInput).Raise?
    ensures SequentialRun(userInput, agents, settings).results == map["error" := JStr(agents.requirement(userInput).msg)]
    ensures SequentialRun(userInput, agents, settings).ran == [Requirements]
  {
  }

  /** Requirements carrying an `"error"` key stop the run too, after being stored. */
  lemma RequirementErrorKeyAborts(userInput: string, agents: Agents, settings: map<string, JValue>)
    requires agents.requirement(userInput).Ok? && "error" in agents.requirement(userInput).value
    ensures var r := SequentialRun(userInput, agents, settings);
      && r.results.Keys == {"requirements", "error"}
      && r.results["error"] == JStr(RequirementFailed)
      && r.ran == [Requirements]
  {
  }

  /** Requirements that were stored without an error key: the flow stage always runs next. */
  predicate PastRequirements(userInput: string, agents: Agents) {
    agents.requirement(userInput).Ok? && "error" !in agents.requirement(userInput).value
  }

  lemma ContinuesFromFlow(userInput: string, agents: Agents, settings: map<string, JValue>)
    requires PastRequirements(userInput, agents)
    ensures var req := agents.requirement(userInput).value;
      SequentialRun(userInput, agents, settings) == FromFlow(req, agents, settings, map["requirements" := JObj(req)])
  {
  }

  /** With `features` a dict, the run calls the stages the flags let through and
      writes their keys in stage order, with no `error`. */
  lemma SequentialResults(userInput: string, agents: Agents, settings: map<string, JValue>)
    requires PastRequirements(userInput, agents)
    requires "features" in settings && settings["features"].JObj?
    ensures var req := JObj(agents.requirement(userInput).value);
      var r1 := map["requirements" := req, "diagram_path" := JStr(agents.flow(req).GetOr(""))];
      var r2 := if FeatureFlag(settings, "enable_pdf_gen", true).value
                then r1["srs_path" := JStr(agents.srs(req).GetOr(""))] else r1;
      var stories := agents.stories(req).GetOr([]);
      var r3 := r2["jira_stories" := JList(stories)];
      SequentialRun(userInput, agents, settings).results ==
        if FeatureFlag(settings, "enable_jira_post", false).value
        then r3["jira_created" := JList(agents.post(stories).GetOr([]))] else r3
    ensures SequentialRun(userInput, agents, settings).ran ==
      [Requirements, Flow] + (if FeatureFlag(settings, "enable_pdf_gen", true).value then [Srs] else [])
      + [Stories] + (if FeatureFlag(settings, "enable_jira_post", false).value then [Post] else [])
  {
    ContinuesFromFlow(userInput, agents, settings);
  }

  /** A raising flow stage leaves `""` in `diagram_path`, and the run goes on. */
  lemma FlowFallsBack(userInput: string, agents: Agents, settings: map<string, JValue>)
    requires PastRequirements(userInput, agents)
    ensures var req := JObj(agents.requirement(userInput).value);
      var r := SequentialRun(userInput, agents, settings);
      && r.results["requirements"] == req
      && r.results["diagram_path"] == JStr(if agents.flow(req).Ok? then agents.flow(req).value else "")
      && |r.ran| >= 2 && r.ran[1] == Flow
  {
    ContinuesFromFlow(userInput, agents, settings);
  }

  /**
   * SRS is called exactly when `enable_pdf_gen` is true (true when absent);
   * when it is false the `srs_path` key is never written.
   */
  lemma SrsGated(userInput: string, agents: Agents, settings: map<string, JValue>)
    requires PastRequirements(userInput, agents)
    requires FeatureFlag(settings, "enable_pdf_gen", true).Ok?
    ensures var pdf := FeatureFlag(settings, "enable_pdf_gen", true).value;
      var req := JObj(agents.requirement(userInput).value);
      var r := SequentialRun(userInput, agents, settings);
      && (Srs in r.ran <==> pdf)
      && ("srs_path" in r.results <==> pdf)
      && (pdf ==> r.results["srs_path"] == JStr(agents.srs(req).GetOr("")))
  {
    SequentialResults(userInput, agents, settings);
  }

  /** A raising story stage leaves `[]` in `jira_stories`, and the run goes on to the posting flag. */
  lemma StoriesFallBack(userInput: string, agents: Agents, settings: map<string, JValue>)
    requires PastRequirements(userInput, agents)
    requires FeatureFlag(settings, "enable_pdf_gen", true).Ok?
    ensures var req := JObj(agents.requirement(userInput).value);
      var r := SequentialRun(userInput, agents, settings);
      && Stories in r.ran
      && r.results["jira_stories"] == JList(agents.stories(req).GetOr([]))
  {
    SequentialResults(userInput, agents, settings);
  }

  /**
   * Posting happens exactly when `enable_jira_post` is true (false when
   * absent), it is given the stories the story stage stored, and a raise
   * leaves `[]` in `jira_created`.
   */
  lemma PostGated(userInput: string, agents: Agents, settings: map<string, JValue>)
    requires PastRequirements(userInput, agents)
    requires FeatureFlag(settings, "enable_jira_post", false).Ok?
    ensures var post := FeatureFlag(settings, "enable_jira_post", false).value;
      var r := SequentialRun(userInput, agents, settings);
      && (Post in r.ran <==> post)
      && ("jira_created" in r.results <==> post)
      && (post ==> r.results["jira_created"] == JList(agents.post(r.results["jira_stories"].items).GetOr([])))
      && "error" !in r.results
  {
    SequentialResults(userInput, agents, settings);
  }

  /**
   * The posting flag can never take the error path: the SRS flag before it
   * reads the same `features` entry and raises first.
   */
  lemma PostFlagNeverAborts(userInput: string, agents: Agents, settings: map<string, JValue>)
    ensures var r := SequentialRun(userInput, agents, settings);
      "error" in r.results ==> Stories !in r.ran
  {
    if PastRequirements(userInput, agents) {
      ContinuesFromFlow(userInput, agents, settings);
      if FeatureFlag(settings, "enable_pdf_gen", true).Ok? {
        assert FeatureFlag(settings, "enable_jira_post", false).Ok?;
      }
    }
  }

  /**
   * A settings tree without `features` turns the flag lookup into the error
   * path: the keys written so far are kept and nothing after the flow stage runs.
   */
  lemma MissingFeaturesKeepsEarlierKeys(userInput: string, agents: Agents, settings: map<string, JValue>)
    requires PastRequirements(userInput, agents)
    requires "features" !in settings
    ensures var req := JObj(agents.requirement(userInput).value);
      var r := SequentialRun(userInput, agents, settings);
      && r.results == map[
           "requirements" := req,
           "diagram_path" := JStr(agents.flow(req).GetOr("")),
           "error" := JStr(KeyErrorMessage("features"))]
      && r.ran == [Requirements, Flow]
  {
    ContinuesFromFlow(userInput, agents, settings);
  }

  /**
   * Wired to the real requirement agent, whose dict never has an `"error"`
   * key, the run ends in the error path only when that agent raises or the
   * `features` lookup fails.
   */
  lemma ErrorOnlyFromRaiseOrSettings(userInput: string, agents: Agents, settings: map<string, JValue>, req: RequirementAgent.RequirementResult)
    requires agents.requirement(userInput) == Ok(RequirementAgent.ToDict(req))
    requires "features" in settings && settings["features"].JObj?
    ensures "error" !in SequentialRun(userInput, agents, settings).results
    ensures Flow in SequentialRun(userInput, agents, settings).ran
    ensures Stories in SequentialRun(userInput, agents, settings).ran
  {
    assert "error" !in RequirementAgent.ToDict(req);
    SequentialResults(userInput, agents, settings);
  }
}
