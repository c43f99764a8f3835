/** agents/jira_post_agent.py: each story posted as a JIRA issue, one
    request after the other, with the created keys collected. */
module JiraPostAgent {
  import opened Wrappers
  import opened Json
  import opened Text
  import opened Config
  import JiraStoryAgent

  /** The `fields` of one create-issue request; the issue type is always
      `Story`. */
  datatype Payload = Payload(projectKey: string, summary: JValue, description: JValue, labels: JValue)

  /** What `requests.post` gave back: a response with its status, what
      `resp.json()` yields or raises, and its text; or the exception the
      request raised. */
  datatype PostResponse =
    | Http(status: int, json: Outcome<JValue>, text: string)
    | PostError(error: string)

  /** An entry of the `failed` list. */
  datatype FailedPost = FailedPost(summary: JValue, statusCode: Option<int>, error: string)

  /** What happened to one story. */
  datatype StepResult =
    | Created(key: JValue)
    | Failed(entry: FailedPost)
    | RateLimited

  /** The summary dict the agent logs before returning. */
  datatype PostSummary = PostSummary(project: string, totalStories: nat, createdKeys: seq<JValue>, failed: seq<FailedPost>)

  /** `os.getenv(name)` is truthy: set and not empty. */
  predicate EnvSet(env: Env, name: string) {
    name in env && env[name] != ""
  }

  predicate HasCredentials(env: Env) {
    EnvSet(env, "JIRA_BASE_URL") && EnvSet(env, "JIRA_EMAIL") && EnvSet(env, "JIRA_API_TOKEN")
  }

  /** `project_key or "SDLC"`; None is modelled as the empty string. */
  function ProjectKey(projectKey: string): string {
    if projectKey == "" then "SDLC" else projectKey
  }

  /** The request body for the story at 1-based position `idx`. The
      description is the BDD text when the story has one. */
  function PayloadOf(story: map<string, JValue>, idx: nat, projectKey: string): (p: Payload)
    ensures p.projectKey == projectKey
    ensures p.summary == (if "summary" in story then story["summary"] else JStr("Auto-Generated Story " + NatToString(idx)))
    ensures p.description == (if "bdd" in story then story["bdd"]
                              else if "description" in story then story["description"] else JStr(""))
    ensures p.labels == (if "labels" in story then story["labels"] else JiraStoryAgent.DefaultLabels)
  {
    Payload(projectKey,
            Lookup(story, "summary", JStr("Auto-Generated Story " + NatToString(idx))),
            Lookup(story, "bdd", Lookup(story, "description", JStr(""))),
            Lookup(story, "labels", JiraStoryAgent.DefaultLabels))
  }

  /** The branches after the request: 200 and 201 create an issue (its key,
      or `UNKNOWN_KEY`), 429 skips the story, any other status or an
      exception records a failure. A body that is not JSON raises inside
      `resp.json()`, one that is not a dict raises at `.get`; both are
      caught and recorded as failures. */
  function Classify(story: map<string, JValue>, resp: PostResponse): (r: StepResult)
    ensures r.Created? <==> resp.Http? && (resp.status == 200 || resp.status == 201) && resp.json.Ok? && resp.json.value.JObj?
    ensures r.RateLimited? <==> resp.Http? && resp.status == 429
    ensures r.Failed? ==> r.entry.summary == Lookup(story, "summary", JNull)
    ensures r.Created? ==> r.key == Lookup(resp.json.value.fields, "key", JStr("UNKNOWN_KEY"))
    ensures r.Failed? && resp.Http? && resp.status != 200 && resp.status != 201 ==>
              r.entry.statusCode == Some(resp.status) && |r.entry.error| <= 300 && StartsWith(resp.text, r.entry.error)
    ensures resp.Http? && resp.status != 200 && resp.status != 201 && resp.status != 429 ==>
              r == Failed(FailedPost(Lookup(story, "summary", JNull), Some(resp.status), Take(resp.text, 300)))
    ensures resp.PostError? ==> r == Failed(FailedPost(Lookup(story, "summary", JNull), None, resp.error))
    ensures resp.Http? && (resp.status == 200 || resp.status == 201) && resp.json.Raise? ==>
              r == Failed(FailedPost(Lookup(story, "summary", JNull), None, resp.json.msg))
  {
    var summary := Lookup(story, "summary", JNull);
    match resp
    case PostError(e) => Failed(FailedPost(summary, None, e))
    case Http(status, json, text) =>
      if status == 200 || status == 201 then
        match json
        case Raise(e) => Failed(FailedPost(summary, None, e))
        case Ok(JObj(fields)) => Created(Lookup(fields, "key", JStr("UNKNOWN_KEY")))
        case Ok(v) => Failed(FailedPost(summary, None, NoAttribute(v, "get")))
      else if status == 429 then RateLimited
      else Failed(FailedPost(summary, Some(status), Take(text, 300)))
  }

  /** The keys of the created issues, in order. */
  function CreatedKeys(steps: seq<StepResult>): seq<JValue> {
    if steps == [] then []
    else CreatedKeys(steps[..|steps| - 1]) + (if steps[|steps| - 1].Created? then [steps[|steps| - 1].key] else [])
  }

  /** The failure entries, in order. */
  function FailedPosts(steps: seq<StepResult>): seq<FailedPost> {
    if steps == [] then []
    else FailedPosts(steps[..|steps| - 1]) + (if steps[|steps| - 1].Failed? then [steps[|steps| - 1].entry] else [])
  }

  /** The stories skipped on 429. */
  function RateLimitedCount(steps: seq<StepResult>): nat {
    if steps == [] then 0
    else RateLimitedCount(steps[..|steps| - 1]) + (if steps[|steps| - 1].RateLimited? then 1 else 0)
  }

  /** Every story is created, failed or skipped: so `created_count +
      failed_count` falls short of `total_stories` by the rate-limited
      stories, which are neither retried nor reported. */
  lemma {:induction false} StepsAccounted(steps: seq<StepResult>)
    ensures |CreatedKeys(steps)| + |FailedPosts(steps)| + RateLimitedCount(steps) == |steps|
  {
    if steps != [] {
      StepsAccounted(steps[..|steps| - 1]);
    }
  }

  /** The payloads for the first `n` stories, all of them dicts. */
  function PayloadsUpTo(stories: seq<JValue>, n: nat, projectKey: string): (r: seq<Payload>)
    requires n <= |stories| && JiraStoryAgent.AllDicts(stories[..n])
    ensures |r| == n
    ensures forall i :: 0 <= i < n ==> r[i] == PayloadOf(stories[i].fields, i + 1, projectKey)
  {
    if n == 0 then []
    else
      assert stories[..n - 1] == stories[..n][..n - 1];
      assert stories[n - 1] == stories[..n][n - 1];
      PayloadsUpTo(stories, n - 1, projectKey) + [PayloadOf(stories[n - 1].fields, n, projectKey)]
  }

  /** The outcome of each of the first `n` stories, given the responses. */
  function StepsUpTo(stories: seq<JValue>, n: nat, projectKey: string, post: (nat, Payload) -> PostResponse): (r: seq<StepResult>)
    requires n <= |stories| && JiraStoryAgent.AllDicts(stories[..n])
    ensures |r| == n
  {
    if n == 0 then []
    else
      assert stories[..n - 1] == stories[..n][..n - 1];
      assert stories[n - 1] == stories[..n][n - 1];
      var p := PayloadOf(stories[n - 1].fields, n, projectKey);
      StepsUpTo(stories, n - 1, projectKey, post) + [Classify(stories[n - 1].fields, post(n, p))]
  }

  /** The index of the first story at or after `from` that is not a dict,
      or `|stories|`. */
  function FirstNonDictFrom(stories: seq<JValue>, from: nat): (i: nat)
    requires from <= |stories|
    ensures from <= i <= |stories|
    ensures forall k :: from <= k < i ==> stories[k].JObj?
    ensures i < |stories| ==> !stories[i].JObj?
    decreases |stories| - from
  {
    if from < |stories| && stories[from].JObj? then FirstNonDictFrom(stories, from + 1) else from
  }

  /** The index of the first story that is not a dict, or `|stories|`. */
  function FirstNonDict(stories: seq<JValue>): (i: nat)
    ensures i <= |stories|
    ensures JiraStoryAgent.AllDicts(stories[..i])
    ensures i < |stories| ==> !stories[i].JObj?
  {
    FirstNonDictFrom(stories, 0)
  }

  lemma StepsUpToNext(stories: seq<JValue>, i: nat, key: string, post: (nat, Payload) -> PostResponse)
    requires i < |stories| && JiraStoryAgent.AllDicts(stories[..i + 1])
    ensures JiraStoryAgent.AllDicts(stories[..i])
    ensures StepsUpTo(stories, i + 1, key, post) == StepsUpTo(stories, i, key, post)
              + [Classify(stories[i].fields, post(i + 1, PayloadOf(stories[i].fields, i + 1, key)))]
    ensures PayloadsUpTo(stories, i + 1, key) == PayloadsUpTo(stories, i, key) + [PayloadOf(stories[i].fields, i + 1, key)]
  {
    assert stories[..i + 1][..i] == stories[..i];
  }

  lemma TalliesNext(steps: seq<StepResult>, step: StepResult)
    ensures CreatedKeys(steps + [step]) == CreatedKeys(steps) + (if step.Created? then [step.key] else [])
    ensures FailedPosts(steps + [step]) == FailedPosts(steps) + (if step.Failed? then [step.entry] else [])
  {
    assert (steps + [step])[..|steps|] == steps;
  }

  /** `post_stories_to_jira(stories, project_key)`. `post` answers the
      request for the story at a 1-based position with a payload. Returns
      the created keys, the payloads actually sent, and the summary the
      agent logs (None when it returns early or aborts). A story that is
      not a dict raises again inside the exception handler, so the call
      returns `[]` although the earlier stories were already posted. */
  method PostStoriesToJira(stories: seq<JValue>, projectKey: string, env: Env, post: (nat, Payload) -> PostResponse)
    returns (created: seq<JValue>, sent: seq<Payload>, summary: Option<PostSummary>)
    ensures !HasCredentials(env) || stories == [] ==> created == [] && sent == [] && summary.None?
    ensures HasCredentials(env) && stories != [] ==>
              var key := ProjectKey(projectKey);
              var n := FirstNonDict(stories);
              && sent == PayloadsUpTo(stories, n, key)
              && (n < |stories| ==> created == [] && summary.None?)
              && (n == |stories| ==>
                    var steps := StepsUpTo(stories, n, key, post);
                    && created == CreatedKeys(steps)
                    && summary == Some(PostSummary(key, |stories|, created, FailedPosts(steps)))
                    && |created| + |FailedPosts(steps)| + RateLimitedCount(steps) == |stories|)
  {
    if !HasCredentials(env) || stories == [] {
      return [], [], None;
    }
    var key := ProjectKey(projectKey);
    var failed: seq<FailedPost> := [];
    ghost var steps: seq<StepResult> := [];
    created, sent := [], [];
    var i := 0;
    while i < |stories|
      invariant 0 <= i <= |stories| && JiraStoryAgent.AllDicts(stories[..i])
      invariant i <= FirstNonDict(stories)
      invariant sent == PayloadsUpTo(stories, i, key)
      invariant steps == StepsUpTo(stories, i, key, post)
      invariant created == CreatedKeys(steps) && failed == FailedPosts(steps)
    {
      if !stories[i].JObj? {
        return [], sent, None;
      }
      assert JiraStoryAgent.AllDicts(stories[..i + 1]);
      var payload := PayloadOf(stories[i].fields, i + 1, key);
      var step := Classify(stories[i].fields, post(i + 1, payload));
      StepsUpToNext(stories, i, key, post);
      TalliesNext(steps, step);
      sent := sent + [payload];
      match step {
        case Created(k) => created := created + [k];
        case Failed(entry) => failed := failed + [entry];
        case RateLimited =>
      }
      steps := steps + [step];
      i := i + 1;
    }
    assert stories[..i] == stories;
    StepsAccounted(steps);
    summary := Some(PostSummary(key, |stories|, created, failed));
  }

  /** A story produced by the story agent is posted with its BDD text as
      the issue description, its own summary and labels. */
  lemma PostedDescriptionIsBdd(s: JiraStoryAgent.Story, idx: nat, projectKey: string)
    ensures PayloadOf(JiraStoryAgent.StoryJson(s).fields, idx, projectKey)
            == Payload(projectKey, s.summary, s.bdd, s.labels)
  {
  }
}
