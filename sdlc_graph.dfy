/**
 * The LangGraph variant of the pipeline: a shared `SDLCState` object that five
 * nodes update in place, wired into a linear chain from `RequirementAgent` to
 * `END`. Nodes never stop the chain; a failing node records its message in
 * `error`, where a later failure overwrites an earlier one.
 */
module SdlcGraph {
  import opened Wrappers
  import opened Json
  import opened Config
  import opened Llm
  import opened Stages
  import RouterAgent

  datatype Node = RequirementAgent | FlowAgent | SrsAgent | JiraStoryAgent | JiraPostAgent

  /** The fields of an `SDLCState`, as a value. */
  datatype Fields = Fields(
    userInput: string,
    requirements: JValue,
    diagramPath: Option<string>,
    srsPath: Option<string>,
    jiraStories: seq<JValue>,
    jiraCreated: seq<JValue>,
    error: Option<string>)

  /** A fresh state: only the user input is set. */
  function Initial(userInput: string): Fields {
    Fields(userInput, JObj(map[]), None, None, [], [], None)
  }

  /** The stage a node calls. */
  function StageOf(n: Node): Stage {
    match n
    case RequirementAgent => Requirements
    case FlowAgent => Flow
    case SrsAgent => Srs
    case JiraStoryAgent => Stories
    case JiraPostAgent => Post
  }

  /** Whether the node calls its stage at all: SRS and posting are behind feature flags. */
  predicate Called(n: Node, settings: map<string, JValue>) {
    match n
    case SrsAgent => FeatureFlag(settings, "enable_pdf_gen", true) == Ok(true)
    case JiraPostAgent => FeatureFlag(settings, "enable_jira_post", false) == Ok(true)
    case _ => true
  }

  /** The message of the exception a node catches, if any: from its flag lookup or from its stage. */
  function Failure(n: Node, f: Fields, agents: Agents, settings: map<string, JValue>): Option<string> {
    match n
    case RequirementAgent => if agents.requirement(f.userInput).Raise? then Some(agents.requirement(f.userInput).msg) else None
    case FlowAgent => if agents.flow(f.requirements).Raise? then Some(agents.flow(f.requirements).msg) else None
    case SrsAgent => (
      match FeatureFlag(settings, "enable_pdf_gen", true)
      case Raise(e) => Some(e)
      case Ok(on) => if on && agents.srs(f.requirements).Raise? then Some(agents.srs(f.requirements).msg) else None)
    case JiraStoryAgent => if agents.stories(f.requirements).Raise? then Some(agents.stories(f.requirements).msg) else None
    case JiraPostAgent => (
      match FeatureFlag(settings, "enable_jira_post", false)
      case Raise(e) => Some(e)
      case Ok(on) => if on && agents.post(f.jiraStories).Raise? then Some(agents.post(f.jiraStories).msg) else None)
  }

  /** What one node does to the state. */
  function NodeStep(n: Node, f: Fields, agents: Agents, settings: map<string, JValue>): Fields {
    match n
    case RequirementAgent => (
      match agents.requirement(f.userInput)
      case Ok(req) => f.(requirements := JObj(req))
      case Raise(e) => f.(error := Some(e)))
    case FlowAgent => (
      match agents.flow(f.requirements)
      case Ok(path) => f.(diagramPath := Some(path))
      case Raise(e) => f.(error := Some(e)))
    case SrsAgent => (
      match FeatureFlag(settings, "enable_pdf_gen", true)
      case Raise(e) => f.(error := Some(e))
      case Ok(on) =>
        if !on then f
        else (
          match agents.srs(f.requirements)
          case Ok(path) => f.(srsPath := Some(path))
          case Raise(e) => f.(error := Some(e))))
    case JiraStoryAgent => (
      match agents.stories(f.requirements)
      case Ok(stories) => f.(jiraStories := stories)
      case Raise(e) => f.(error := Some(e)))
    case JiraPostAgent => (
      match FeatureFlag(settings, "enable_jira_post", false)
      case Raise(e) => f.(error := Some(e))
      case Ok(on) =>
        if !on then f
        else (
          match agents.post(f.jiraStories)
          case Ok(created) => f.(jiraCreated := created)
          case Raise(e) => f.(error := Some(e))))
  }

  /** `a` and `b` agree on every field except node `n`'s own output and `error`. */
  predicate SameOutside(n: Node, a: Fields, b: Fields) {
    && a.userInput == b.userInput
    && (n != RequirementAgent ==> a.requirements == b.requirements)
    && (n != FlowAgent ==> a.diagramPath == b.diagramPath)
    && (n != SrsAgent ==> a.srsPath == b.srsPath)
    && (n != JiraStoryAgent ==> a.jiraStories == b.jiraStories)
    && (n != JiraPostAgent ==> a.jiraCreated == b.jiraCreated)
  }

  /**
   * A node writes at most its own output field and `error`. A failing node
   * changes nothing but `error`, which it sets to the message; a succeeding
   * node leaves `error` as it was.
   */
  lemma NodeFrame(n: Node, f: Fields, agents: Agents, settings: map<string, JValue>)
    ensures SameOutside(n, NodeStep(n, f, agents, settings), f)
    ensures Failure(n, f, agents, settings).Some? ==>
              NodeStep(n, f, agents, settings) == f.(error := Failure(n, f, agents, settings))
    ensures Failure(n, f, agents, settings).None? ==> NodeStep(n, f, agents, settings).error == f.error
  {
  }

  /** With its flag off, a gated node leaves the state exactly as it found it. */
  lemma GatedNodeSkipped(n: Node, f: Fields, agents: Agents, settings: map<string, JValue>)
    requires || (n == SrsAgent && FeatureFlag(settings, "enable_pdf_gen", true) == Ok(false))
             || (n == JiraPostAgent && FeatureFlag(settings, "enable_jira_post", false) == Ok(false))
    ensures NodeStep(n, f, agents, settings) == f
    ensures !Called(n, settings)
  {
  }

  /** The state after the nodes of `ns` ran in order from `f`. */
  function Steps(ns: seq<Node>, f: Fields, agents: Agents, settings: map<string, JValue>): Fields {
    if ns == [] then f
    else NodeStep(ns[|ns| - 1], Steps(ns[..|ns| - 1], f, agents, settings), agents, settings)
  }

  /** The failure, if any, of the `i`-th node of `ns` in the state it found. */
  function FailureAt(ns: seq<Node>, i: nat, f: Fields, agents: Agents, settings: map<string, JValue>): Option<string>
    requires i < |ns|
  {
    Failure(ns[i], Steps(ns[..i], f, agents, settings), agents, settings)
  }

  /** Running one more node is one more `NodeStep`. */
  lemma StepsAppend(ns: seq<Node>, n: Node, f: Fields, agents: Agents, settings: map<string, JValue>)
    ensures Steps(ns + [n], f, agents, settings) == NodeStep(n, Steps(ns, f, agents, settings), agents, settings)
  {
    assert (ns + [n])[..|ns|] == ns;
  }

  /** The nodes before the last see the same states whether or not the last one runs. */
  lemma FailureAtPrefix(ns: seq<Node>, i: nat, f: Fields, agents: Agents, settings: map<string, JValue>)
    requires i < |ns| - 1
    ensures FailureAt(ns[..|ns| - 1], i, f, agents, settings) == FailureAt(ns, i, f, agents, settings)
  {
    assert ns[..|ns| - 1][..i] == ns[..i];
  }

  /** A run in which no node fails leaves `error` as it was. */
  lemma {:induction false} NoFailureKeepsError(ns: seq<Node>, f: Fields, agents: Agents, settings: map<string, JValue>)
    requires forall i :: 0 <= i < |ns| ==> FailureAt(ns, i, f, agents, settings).None?
    ensures Steps(ns, f, agents, settings).error == f.error
  {
    if ns != [] {
      var prefix := ns[..|ns| - 1];
      forall i | 0 <= i < |prefix|
        ensures FailureAt(prefix, i, f, agents, settings).None?
      {
        FailureAtPrefix(ns, i, f, agents, settings);
      }
      NoFailureKeepsError(prefix, f, agents, settings);
      assert FailureAt(ns, |ns| - 1, f, agents, settings).None?;
      NodeFrame(ns[|ns| - 1], Steps(prefix, f, agents, settings), agents, settings);
    }
  }

  /**
   * `error` is last-writer-wins: after a run it holds the message of the last
   * node that failed, whatever earlier nodes wrote there.
   */
  lemma {:induction false} LastFailureWins(ns: seq<Node>, i: nat, f: Fields, agents: Agents, settings: map<string, JValue>)
    requires i < |ns| && FailureAt(ns, i, f, agents, settings).Some?
    requires forall j :: i < j < |ns| ==> FailureAt(ns, j, f, agents, settings).None?
    ensures Steps(ns, f, agents, settings).error == FailureAt(ns, i, f, agents, settings)
  {
    var prefix := ns[..|ns| - 1];
    var last := |ns| - 1;
    assert prefix == ns[..last];
    if i == last {
      NodeFrame(ns[last], Steps(prefix, f, agents, settings), agents, settings);
    } else {
      FailureAtPrefix(ns, i, f, agents, settings);
      forall j | i < j < |prefix|
        ensures FailureAt(prefix, j, f, agents, settings).None?
      {
        FailureAtPrefix(ns, j, f, agents, settings);
      }
      LastFailureWins(prefix, i, f, agents, settings);
      assert FailureAt(ns, last, f, agents, settings).None?;
      NodeFrame(ns[last], Steps(prefix, f, agents, settings), agents, settings);
    }
  }

  /** With the SRS flag off, no run of nodes ever writes `srs_path`. */
  lemma {:induction false} SrsPathUntouched(ns: seq<Node>, f: Fields, agents: Agents, settings: map<string, JValue>)
    requires FeatureFlag(settings, "enable_pdf_gen", true) == Ok(false)
    ensures Steps(ns, f, agents, settings).srsPath == f.srsPath
  {
    if ns != [] {
      var prefix := ns[..|ns| - 1];
      SrsPathUntouched(prefix, f, agents, settings);
      NodeFrame(ns[|ns| - 1], Steps(prefix, f, agents, settings), agents, settings);
      if ns[|ns| - 1] == SrsAgent {
        GatedNodeSkipped(SrsAgent, Steps(prefix, f, agents, settings), agents, settings);
      }
    }
  }

  /** With the posting flag off, no run of nodes ever writes `jira_created`. */
  lemma {:induction false} JiraCreatedUntouched(ns: seq<Node>, f: Fields, agents: Agents, settings: map<string, JValue>)
    requires FeatureFlag(settings, "enable_jira_post", false) == Ok(false)
    ensures Steps(ns, f, agents, settings).jiraCreated == f.jiraCreated
  {
    if ns != [] {
      var prefix := ns[..|ns| - 1];
      JiraCreatedUntouched(prefix, f, agents, settings);
      NodeFrame(ns[|ns| - 1], Steps(prefix, f, agents, settings), agents, settings);
      if ns[|ns| - 1] == JiraPostAgent {
        GatedNodeSkipped(JiraPostAgent, Steps(prefix, f, agents, settings), agents, settings);
      }
    }
  }

  /**
   * Over a whole run, a disabled SRS stage leaves `srs_path` None and a
   * disabled posting stage leaves `jira_created` empty.
   */
  lemma DisabledOutputsStayInitial(userInput: string, agents: Agents, settings: map<string, JValue>)
    ensures FeatureFlag(settings, "enable_pdf_gen", true) == Ok(false) ==> GraphRun(userInput, agents, settings).srsPath == None
    ensures FeatureFlag(settings, "enable_jira_post", false) == Ok(false) ==> GraphRun(userInput, agents, settings).jiraCreated == []
  {
    if FeatureFlag(settings, "enable_pdf_gen", true) == Ok(false) {
      SrsPathUntouched(Chain, Initial(userInput), agents, settings);
    }
    if FeatureFlag(settings, "enable_jira_post", false) == Ok(false) {
      JiraCreatedUntouched(Chain, Initial(userInput), agents, settings);
    }
  }

  /** Where an edge leads: another node, or the end of the run. */
  datatype Target = Goto(node: Node) | End

  /** A compiled graph: its nodes, one outgoing edge per node, and the entry point. */
  datatype Graph = Graph(nodes: seq<Node>, edges: map<Node, Target>, entry: Node)

  /** Position of a node in the chain. */
  function Rank(n: Node): nat {
    match n
    case RequirementAgent => 0
    case FlowAgent => 1
    case SrsAgent => 2
    case JiraStoryAgent => 3
    case JiraPostAgent => 4
  }

  /** How far a target is from the end of the chain. */
  function Distance(t: Target): nat {
    match t
    case End => 0
    case Goto(n) => 5 - Rank(n)
  }

  /** Every node has an edge, and every edge moves towards the end, so a run always finishes. */
  predicate ForwardOnly(g: Graph) {
    && (forall n: Node :: n in g.edges)
    && (forall n :: n in g.edges ==> Distance(g.edges[n]) < Distance(Goto(n)))
  }

  lemma EveryNodeIn(edges: map<Node, Target>)
    requires RequirementAgent in edges && FlowAgent in edges && SrsAgent in edges
    requires JiraStoryAgent in edges && JiraPostAgent in edges
    ensures forall n: Node :: n in edges
  {
    forall n: Node
      ensures n in edges
    {
      match n {
        case RequirementAgent =>
        case FlowAgent =>
        case SrsAgent =>
        case JiraStoryAgent =>
        case JiraPostAgent =>
      }
    }
  }

  /** `build_sdlc_graph`. */
  function BuildSdlcGraph(): (g: Graph)
    ensures ForwardOnly(g)
  {
    var edges := map[RequirementAgent := Goto(FlowAgent),
                     FlowAgent := Goto(SrsAgent),
                     SrsAgent := Goto(JiraStoryAgent),
                     JiraStoryAgent := Goto(JiraPostAgent),
                     JiraPostAgent := End];
    EveryNodeIn(edges);
    Graph(
      [RequirementAgent, FlowAgent, SrsAgent, JiraStoryAgent, JiraPostAgent],
      edges,
      RequirementAgent)
  }

  /** The nodes a run visits from `t`, following one edge after each node. */
  function Route(g: Graph, t: Target): seq<Node>
    requires ForwardOnly(g)
    decreases Distance(t)
  {
    match t
    case End => []
    case Goto(n) => [n] + Route(g, g.edges[n])
  }

  /** Visiting `n` moves it from the route ahead to the nodes behind. */
  lemma RouteStep(g: Graph, visited: seq<Node>, n: Node)
    requires ForwardOnly(g)
    ensures visited + Route(g, Goto(n)) == (visited + [n]) + Route(g, g.edges[n])
  {
    assert Route(g, Goto(n)) == [n] + Route(g, g.edges[n]);
  }

  /** The chain the pipeline runs. */
  const Chain: seq<Node> := [RequirementAgent, FlowAgent, SrsAgent, JiraStoryAgent, JiraPostAgent]

  /** The built graph visits every node once, in the chain order, from `RequirementAgent` to `END`. */
  lemma BuiltGraphRunsChain()
    ensures Route(BuildSdlcGraph(), Goto(BuildSdlcGraph().entry)) == Chain
  {
    var g := BuildSdlcGraph();
    assert Route(g, Goto(JiraPostAgent)) == [JiraPostAgent];
    assert Route(g, Goto(JiraStoryAgent)) == [JiraStoryAgent, JiraPostAgent];
    assert Route(g, Goto(SrsAgent)) == [SrsAgent, JiraStoryAgent, JiraPostAgent];
    assert Route(g, Goto(FlowAgent)) == [FlowAgent, SrsAgent, JiraStoryAgent, JiraPostAgent];
  }

  /** The stages the nodes of `ns` call, in order. */
  function StagesOf(ns: seq<Node>, settings: map<string, JValue>): seq<Stage> {
    if ns == [] then []
    else StagesOf(ns[..|ns| - 1], settings) + (if Called(ns[|ns| - 1], settings) then [StageOf(ns[|ns| - 1])] else [])
  }

  lemma StagesOfAppend(ns: seq<Node>, n: Node, settings: map<string, JValue>)
    ensures StagesOf(ns + [n], settings) == StagesOf(ns, settings) + if Called(n, settings) then [StageOf(n)] else []
  {
    assert (ns + [n])[..|ns|] == ns;
  }

  /** Node `n` after the nodes of `visited` adds its stage's usage, if it calls
      its stage, after theirs, and notifies the callback after them. */
  lemma UsageStep(ns: seq<Node>, n: Node, settings: map<string, JValue>, usage: Stage -> seq<AgentEntry>,
                  cb: Option<Observer>, before: seq<AgentEntry>)
    ensures var used := UsageOf(StagesOf(ns, settings), usage);
      var added := if Called(n, settings) then usage(StageOf(n)) else [];
      && UsageOf(StagesOf(ns + [n], settings), usage) == used + added
      && Notices(cb, before, used + added) == Notices(cb, before, used) + Notices(cb, before + used, added)
  {
    StagesOfAppend(ns, n, settings);
    var used := UsageOf(StagesOf(ns, settings), usage);
    var added := if Called(n, settings) then usage(StageOf(n)) else [];
    if Called(n, settings) {
      UsageOfAppend(StagesOf(ns, settings), StageOf(n), usage);
    } else {
      assert StagesOf(ns + [n], settings) == StagesOf(ns, settings);
      assert used + added == used;
    }
    NoticesAppend(cb, before, used, added);
  }

  class SdlcState {
    var userInput: string
    var requirements: JValue
    var diagramPath: Option<string>
    var srsPath: Option<string>
    var jiraStories: seq<JValue>
    var jiraCreated: seq<JValue>
    var error: Option<string>

    function Value(): Fields
      reads this
    {
      Fields(userInput, requirements, diagramPath, srsPath, jiraStories, jiraCreated, error)
    }

    constructor (userInput: string)
      ensures Value() == Initial(userInput)
    {
      this.userInput := userInput;
      requirements := JObj(map[]);
      diagramPath := None;
      srsPath := None;
      jiraStories := [];
      jiraCreated := [];
      error := None;
    }

    /** `requirement_node`. */
    method RequirementNode(tracker: TokenTracker, agents: Agents, settings: map<string, JValue>)
      requires tracker.Valid()
      modifies this, tracker
      ensures tracker.Valid() && tracker.callback == old(tracker.callback)
      ensures tracker.agents == old(tracker.agents) + agents.usage(Requirements)
      ensures tracker.notified == old(tracker.notified) + Notices(tracker.callback, old(tracker.agents), agents.usage(Requirements))
      ensures Value() == NodeStep(RequirementAgent, old(Value()), agents, settings)
    {
      ReportUsage(tracker, agents.usage(Requirements));
      var r := agents.requirement(userInput);
      if r.Ok? {
        requirements := JObj(r.value);
      } else {
        error := Some(r.msg);
      }
    }

    /** `flow_node`. */
    method FlowNode(tracker: TokenTracker, agents: Agents, settings: map<string, JValue>)
      requires tracker.Valid()
      modifies this, tracker
      ensures tracker.Valid() && tracker.callback == old(tracker.callback)
      ensures tracker.agents == old(tracker.agents) + agents.usage(Flow)
      ensures tracker.notified == old(tracker.notified) + Notices(tracker.callback, old(tracker.agents), agents.usage(Flow))
      ensures Value() == NodeStep(FlowAgent, old(Value()), agents, settings)
    {
      ReportUsage(tracker, agents.usage(Flow));
      var r := agents.flow(requirements);
      if r.Ok? {
        diagramPath := Some(r.value);
      } else {
        error := Some(r.msg);
      }
    }

    /** `srs_node`: the flag lookup and the SRS call share one handler. */
    method SrsNode(tracker: TokenTracker, agents: Agents, settings: map<string, JValue>)
      requires tracker.Valid()
      modifies this, tracker
      ensures tracker.Valid() && tracker.callback == old(tracker.callback)
      ensures tracker.agents == old(tracker.agents) + if Called(SrsAgent, settings) then agents.usage(Srs) else []
      ensures tracker.notified == old(tracker.notified) +
                Notices(tracker.callback, old(tracker.agents), if Called(SrsAgent, settings) then agents.usage(Srs) else [])
      ensures Value() == NodeStep(SrsAgent, old(Value()), agents, settings)
    {
      var on := FeatureFlag(settings, "enable_pdf_gen", true);
      if on.Raise? {
        error := Some(on.msg);
      } else if on.value {
        ReportUsage(tracker, agents.usage(Srs));
        var r := agents.srs(requirements);
        if r.Ok? {
          srsPath := Some(r.value);
        } else {
          error := Some(r.msg);
        }
      }
    }

    /** `jira_story_node`. */
    method JiraStoryNode(tracker: TokenTracker, agents: Agents, settings: map<string, JValue>)
      requires tracker.Valid()
      modifies this, tracker
      ensures tracker.Valid() && tracker.callback == old(tracker.callback)
      ensures tracker.agents == old(tracker.agents) + agents.usage(Stories)
      ensures tracker.notified == old(tracker.notified) + Notices(tracker.callback, old(tracker.agents), agents.usage(Stories))
      ensures Value() == NodeStep(JiraStoryAgent, old(Value()), agents, settings)
    {
      ReportUsage(tracker, agents.usage(Stories));
      var r := agents.stories(requirements);
      if r.Ok? {
        jiraStories := r.value;
      } else {
        error := Some(r.msg);
      }
    }

    /** `jira_post_node`: the flag lookup and the posting call share one handler. */
    method JiraPostNode(tracker: TokenTracker, agents: Agents, settings: map<string, JValue>)
      requires tracker.Valid()
      modifies this, tracker
      ensures tracker.Valid() && tracker.callback == old(tracker.callback)
      ensures tracker.agents == old(tracker.agents) + if Called(JiraPostAgent, settings) then agents.usage(Post) else []
      ensures tracker.notified == old(tracker.notified) +
                Notices(tracker.callback, old(tracker.agents), if Called(JiraPostAgent, settings) then agents.usage(Post) else [])
      ensures Value() == NodeStep(JiraPostAgent, old(Value()), agents, settings)
    {
      var on := FeatureFlag(settings, "enable_jira_post", false);
      if on.Raise? {
        error := Some(on.msg);
      } else if on.value {
        ReportUsage(tracker, agents.usage(Post));
        var r := agents.post(jiraStories);
        if r.Ok? {
          jiraCreated := r.value;
        } else {
          error := Some(r.msg);
        }
      }
    }

    /** Runs node `n` on this state. */
    method Visit(n: Node, tracker: TokenTracker, agents: Agents, settings: map<string, JValue>)
      requires tracker.Valid()
      modifies this, tracker
      ensures tracker.Valid() && tracker.callback == old(tracker.callback)
      ensures tracker.agents == old(tracker.agents) + if Called(n, settings) then agents.usage(StageOf(n)) else []
      ensures tracker.notified == old(tracker.notified) +
                Notices(tracker.callback, old(tracker.agents), if Called(n, settings) then agents.usage(StageOf(n)) else [])
      ensures Value() == NodeStep(n, old(Value()), agents, settings)
    {
      match n {
        case RequirementAgent => RequirementNode(tracker, agents, settings);
        case FlowAgent => FlowNode(tracker, agents, settings);
        case SrsAgent => SrsNode(tracker, agents, settings);
        case JiraStoryAgent => JiraStoryNode(tracker, agents, settings);
        case JiraPostAgent => JiraPostNode(tracker, agents, settings);
      }
    }
  }

  /**
   * One step of the run: node `n` runs after the nodes of `visited`, its
   * effect extends theirs and its usage lands after theirs.
   */
  method RunNode(state: SdlcState, n: Node, tracker: TokenTracker, agents: Agents, settings: map<string, JValue>,
                 ghost visited: seq<Node>, ghost start: Fields, ghost before: seq<AgentEntry>,
                 ghost notes: seq<(Observer, UsageSummary)>)
    requires tracker.Valid()
    requires state.Value() == Steps(visited, start, agents, settings)
    requires tracker.agents == before + UsageOf(StagesOf(visited, settings), agents.usage)
    requires tracker.notified == notes + Notices(tracker.callback, before, UsageOf(StagesOf(visited, settings), agents.usage))
    modifies state, tracker
    ensures tracker.Valid() && tracker.callback == old(tracker.callback)
    ensures state.Value() == Steps(visited + [n], start, agents, settings)
    ensures tracker.agents == before + UsageOf(StagesOf(visited + [n], settings), agents.usage)
    ensures tracker.notified == notes + Notices(tracker.callback, before, UsageOf(StagesOf(visited + [n], settings), agents.usage))
  {
    ghost var used := UsageOf(StagesOf(visited, settings), agents.usage);
    ghost var added := if Called(n, settings) then agents.usage(StageOf(n)) else [];
    UsageStep(visited, n, settings, agents.usage, tracker.callback, before);
    StepsAppend(visited, n, start, agents, settings);
    state.Visit(n, tracker, agents, settings);
    AppendAssoc(before, used, added);
    AppendAssoc(notes, Notices(tracker.callback, before, used), Notices(tracker.callback, before + used, added));
  }

  /**
   * `app.invoke(state)`: starting at the entry point, run the current node on
   * the shared state and follow its edge, until the edge leads to the end.
   */
  method Invoke(g: Graph, state: SdlcState, tracker: TokenTracker, agents: Agents, settings: map<string, JValue>)
    returns (visited: seq<Node>)
    requires ForwardOnly(g) && tracker.Valid()
    modifies state, tracker
    ensures tracker.Valid() && tracker.callback == old(tracker.callback)
    ensures visited == Route(g, Goto(g.entry))
    ensures state.Value() == Steps(visited, old(state.Value()), agents, settings)
    ensures tracker.agents == old(tracker.agents) + UsageOf(StagesOf(visited, settings), agents.usage)
    ensures tracker.notified == old(tracker.notified) +
              Notices(tracker.callback, old(tracker.agents), UsageOf(StagesOf(visited, settings), agents.usage))
  {
    ghost var start, before, notes := state.Value(), tracker.agents, tracker.notified;
    var current := Goto(g.entry);
    visited := [];
    while current.Goto?
      invariant visited + Route(g, current) == Route(g, Goto(g.entry))
      invariant tracker.Valid() && tracker.callback == old(tracker.callback)
      invariant state.Value() == Steps(visited, start, agents, settings)
      invariant tracker.agents == before + UsageOf(StagesOf(visited, settings), agents.usage)
      invariant tracker.notified == notes + Notices(tracker.callback, before, UsageOf(StagesOf(visited, settings), agents.usage))
      decreases Distance(current)
    {
      var n := current.node;
      RunNode(state, n, tracker, agents, settings, visited, start, before, notes);
      RouteStep(g, visited, n);
      visited := visited + [n];
      current := g.edges[n];
    }
  }

  /** Where the graph drawing lands, or None when any step of drawing it raises. */
  function GraphImage(settings: map<string, JValue>, mkdirOk: bool, drawOk: bool): (r: Option<string>)
    ensures r.Some? <==> DiagramsDir(settings).Ok? && mkdirOk && drawOk
    ensures r.Some? ==> r.value == JoinPath(DiagramsDir(settings).value, "langgraph_pipeline.png")
  {
    match DiagramsDir(settings)
    case Raise(_) => None
    case Ok(dir) => if mkdirOk && drawOk then Some(JoinPath(dir, "langgraph_pipeline.png")) else None
  }

  function OptionalString(o: Option<string>): JValue {
    match o
    case Some(s) => JStr(s)
    case None => JNull
  }

  /** The dictionary `run_sdlc_graph` returns. */
  function GraphResult(f: Fields, tokenSummary: JValue, image: Option<string>): (r: map<string, JValue>)
    ensures forall k :: k in r <==> k in {"requirements", "diagram_path", "srs_path", "jira_stories",
                                          "jira_created", "error", "token_summary", "graph_image"}
    ensures r["graph_image"] == JNull <==> image.None?
    ensures r["error"] == JNull <==> f.error.None?
  {
    map[
      "requirements" := f.requirements,
      "diagram_path" := OptionalString(f.diagramPath),
      "srs_path" := OptionalString(f.srsPath),
      "jira_stories" := JList(f.jiraStories),
      "jira_created" := JList(f.jiraCreated),
      "error" := OptionalString(f.error),
      "token_summary" := tokenSummary,
      "graph_image" := OptionalString(image)]
  }

  /** The final state of a run on `userInput`. */
  function GraphRun(userInput: string, agents: Agents, settings: map<string, JValue>): Fields {
    Steps(Chain, Initial(userInput), agents, settings)
  }

  /** The run on `userInput` is the five node steps, one after the other. */
  lemma GraphRunUnrolled(userInput: string, agents: Agents, settings: map<string, JValue>)
    ensures GraphRun(userInput, agents, settings) ==
      var f1 := NodeStep(RequirementAgent, Initial(userInput), agents, settings);
      var f2 := NodeStep(FlowAgent, f1, agents, settings);
      var f3 := NodeStep(SrsAgent, f2, agents, settings);
      var f4 := NodeStep(JiraStoryAgent, f3, agents, settings);
      NodeStep(JiraPostAgent, f4, agents, settings)
  {
    var f0 := Initial(userInput);
    StepsAppend([], RequirementAgent, f0, agents, settings);
    assert [] + [RequirementAgent] == [RequirementAgent];
    StepsAppend([RequirementAgent], FlowAgent, f0, agents, settings);
    assert [RequirementAgent] + [FlowAgent] == [RequirementAgent, FlowAgent];
    StepsAppend([RequirementAgent, FlowAgent], SrsAgent, f0, agents, settings);
    assert [RequirementAgent, FlowAgent] + [SrsAgent] == [RequirementAgent, FlowAgent, SrsAgent];
    StepsAppend([RequirementAgent, FlowAgent, SrsAgent], JiraStoryAgent, f0, agents, settings);
    assert [RequirementAgent, FlowAgent, SrsAgent] + [JiraStoryAgent] == [RequirementAgent, FlowAgent, SrsAgent, JiraStoryAgent];
    StepsAppend([RequirementAgent, FlowAgent, SrsAgent, JiraStoryAgent], JiraPostAgent, f0, agents, settings);
    assert [RequirementAgent, FlowAgent, SrsAgent, JiraStoryAgent] + [JiraPostAgent] == Chain;
  }

  /**
   * `run_sdlc_graph`: a fresh state, the built graph, the drawing (which may
   * fail without consequence), the run, then the result with the usage
   * snapshot taken after the run.
   */
  method RunSdlcGraph(tracker: TokenTracker, userInput: string, agents: Agents, settings: map<string, JValue>,
                      mkdirOk: bool, drawOk: bool)
    returns (result: map<string, JValue>)
    requires tracker.Valid()
    modifies tracker
    ensures tracker.Valid() && tracker.callback == old(tracker.callback)
    ensures result == GraphResult(GraphRun(userInput, agents, settings), SummaryJson(tracker.Summary()),
                                  GraphImage(settings, mkdirOk, drawOk))
    ensures tracker.agents == old(tracker.agents) + UsageOf(StagesOf(Chain, settings), agents.usage)
    ensures tracker.notified == old(tracker.notified) +
              Notices(tracker.callback, old(tracker.agents), UsageOf(StagesOf(Chain, settings), agents.usage))
  {
    var state := new SdlcState(userInput);
    var g := BuildSdlcGraph();
    var image := GraphImage(settings, mkdirOk, drawOk);
    BuiltGraphRunsChain();
    var visited := Invoke(g, state, tracker, agents, settings);
    result := GraphResult(state.Value(), SummaryJson(tracker.Summary()), image);
  }

  /** When every stage succeeds and `features` is a dict, the run fills every
      field it is gated to fill and records no error. */
  lemma GraphRunAllOk(userInput: string, agents: Agents, settings: map<string, JValue>)
    requires agents.requirement(userInput).Ok?
    requires "features" in settings && settings["features"].JObj?
    requires forall x :: agents.flow(x).Ok? && agents.srs(x).Ok? && agents.stories(x).Ok?
    requires forall xs :: agents.post(xs).Ok?
    ensures var req := JObj(agents.requirement(userInput).value);
      var stories := agents.stories(req).value;
      GraphRun(userInput, agents, settings) == Fields(
        userInput, req, Some(agents.flow(req).value),
        if FeatureFlag(settings, "enable_pdf_gen", true).value then Some(agents.srs(req).value) else None,
        stories,
        if FeatureFlag(settings, "enable_jira_post", false).value then agents.post(stories).value else [],
        None)
  {
    GraphRunUnrolled(userInput, agents, settings);
  }

  /**
   * When no stage raises and `features` is a dict, the graph and the
   * sequential router produce the same values: the graph's None and `[]`
   * stand where the router leaves a gated key out.
   */
  lemma AgreesWithSequentialRun(userInput: string, agents: Agents, settings: map<string, JValue>)
    requires RouterAgent.PastRequirements(userInput, agents)
    requires "features" in settings && settings["features"].JObj?
    requires forall x :: agents.flow(x).Ok? && agents.srs(x).Ok? && agents.stories(x).Ok?
    requires forall xs :: agents.post(xs).Ok?
    ensures var g := GraphRun(userInput, agents, settings);
      var r := RouterAgent.SequentialRun(userInput, agents, settings).results;
      && g.error == None && "error" !in r
      && r["requirements"] == g.requirements
      && r["diagram_path"] == OptionalString(g.diagramPath)
      && ("srs_path" in r <==> g.srsPath.Some?)
      && ("srs_path" in r ==> r["srs_path"] == OptionalString(g.srsPath))
      && r["jira_stories"] == JList(g.jiraStories)
      && ("jira_created" in r ==> r["jira_created"] == JList(g.jiraCreated))
      && ("jira_created" !in r ==> g.jiraCreated == [])
  {
    GraphRunAllOk(userInput, agents, settings);
    RouterAgent.SequentialResults(userInput, agents, settings);
  }
}
