/**
 * The five pipeline stages as both orchestrators see them: each agent is a
 * collaborator whose outcome is given (a value, or the message of the
 * exception it raised), together with the usage entries its model calls log
 * on the shared token tracker.
 */
module Stages {
  import opened Wrappers
  import opened Json
  import opened Llm

  datatype Stage = Requirements | Flow | Srs | Stories | Post

  /**
   * The collaborators: `requirement` is `run_requirement_agent`, `flow` is
   * `run_flow_agent`, `srs` is `run_srs_agent`, `stories` is
   * `run_jira_story_agent`, `post` is `post_stories_to_jira`; `usage` is what
   * each one logs on the tracker when it is called.
   */
  datatype Agents = Agents(
    requirement: string -> Outcome<map<string, JValue>>,
    flow: JValue -> Outcome<string>,
    srs: JValue -> Outcome<string>,
    stories: JValue -> Outcome<seq<JValue>>,
    post: seq<JValue> -> Outcome<seq<JValue>>,
    usage: Stage -> seq<AgentEntry>)

  /** The usage logged by the stages of `ran`, in call order. */
  function UsageOf(ran: seq<Stage>, usage: Stage -> seq<AgentEntry>): seq<AgentEntry> {
    if ran == [] then [] else UsageOf(ran[..|ran| - 1], usage) + usage(ran[|ran| - 1])
  }

  lemma UsageOfAppend(ran: seq<Stage>, s: Stage, usage: Stage -> seq<AgentEntry>)
    ensures UsageOf(ran + [s], usage) == UsageOf(ran, usage) + usage(s)
  {
    assert (ran + [s])[..|ran|] == ran;
  }

  /** The calls one stage makes on the tracker, one `log_agent` per entry:
      each entry lands after the earlier ones and notifies the callback once. */
  method ReportUsage(tracker: TokenTracker, entries: seq<AgentEntry>)
    requires tracker.Valid()
    modifies tracker
    ensures tracker.Valid()
    ensures tracker.agents == old(tracker.agents) + entries
    ensures tracker.callback == old(tracker.callback)
    ensures tracker.notified == old(tracker.notified) + Notices(tracker.callback, old(tracker.agents), entries)
  {
    ghost var logged, notes := tracker.agents, tracker.notified;
    var i := 0;
    while i < |entries|
      invariant 0 <= i <= |entries|
      invariant tracker.Valid()
      invariant tracker.agents == logged + entries[..i]
      invariant tracker.callback == old(tracker.callback)
      invariant tracker.notified == notes + Notices(tracker.callback, logged, entries[..i])
    {
      var e := entries[i];
      assert entries[..i + 1] == entries[..i] + [e];
      NoticesAppend(tracker.callback, logged, entries[..i], [e]);
      AppendAssoc(logged, entries[..i], [e]);
      AppendAssoc(notes, Notices(tracker.callback, logged, entries[..i]), Notices(tracker.callback, logged + entries[..i], [e]));
      tracker.LogAgent(e.agent, e.inputTokens, e.outputTokens, e.costUsd);
      i := i + 1;
    }
    assert entries[..i] == entries;
  }

  /**
   * The tracker holds, after the entries `before` and the notifications
   * `notes` it had at the start, exactly the usage of the stages of `ran` in
   * call order and the callback's notifications for it.
   */
  ghost predicate Logged(tracker: TokenTracker, usage: Stage -> seq<AgentEntry>, before: seq<AgentEntry>,
                         notes: seq<(Observer, UsageSummary)>, ran: seq<Stage>)
    reads tracker
  {
    && tracker.Valid()
    && tracker.agents == before + UsageOf(ran, usage)
    && tracker.notified == notes + Notices(tracker.callback, before, UsageOf(ran, usage))
  }

  /**
   * Calling stage `s` after the stages of `ran`: its usage lands on the
   * tracker after theirs, its notifications follow theirs, and `s` joins
   * the list of stages called.
   */
  method LogStage(tracker: TokenTracker, usage: Stage -> seq<AgentEntry>, ghost before: seq<AgentEntry>,
                  ghost notes: seq<(Observer, UsageSummary)>, ran: seq<Stage>, s: Stage) returns (ran': seq<Stage>)
    requires Logged(tracker, usage, before, notes, ran)
    modifies tracker
    ensures tracker.callback == old(tracker.callback)
    ensures ran' == ran + [s]
    ensures Logged(tracker, usage, before, notes, ran')
  {
    UsageOfAppend(ran, s, usage);
    NoticesAppend(tracker.callback, before, UsageOf(ran, usage), usage(s));
    AppendAssoc(before, UsageOf(ran, usage), usage(s));
    AppendAssoc(notes, Notices(tracker.callback, before, UsageOf(ran, usage)),
                Notices(tracker.callback, before + UsageOf(ran, usage), usage(s)));
    ReportUsage(tracker, usage(s));
    ran' := ran + [s];
  }
}
