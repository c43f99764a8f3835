/** agents/mindmap_agent.py: a DOT mind map and a picture of it, asked of
    the model one after the other, each logged on the shared token tracker
    when it succeeds. */
module MindmapAgent {
  import opened Wrappers
  import opened Json
  import opened Text
  import opened Config
  import opened Llm

  /** The text map reported when the text phase fails. */
  const TextMapError: string := "Error generating text mind map."

  const WrapHead: string := "digraph MindMap {\n"
  const WrapTail: string := "\n}"

  /** A reply that never says `digraph` is wrapped in a `MindMap` digraph. */
  function WrapMindMap(text: string): (r: string)
    ensures Contains(r, "digraph")
    ensures Contains(text, "digraph") ==> r == text
    ensures !Contains(text, "digraph") ==>
              && StartsWith(r, WrapHead) && EndsWith(r, WrapTail)
              && |r| == |WrapHead| + |text| + |WrapTail|
              && r[|WrapHead|..|r| - |WrapTail|] == text
  {
    if Contains(text, "digraph") then text
    else
      var r := WrapHead + text + WrapTail;
      assert r[..7] == "digraph";
      assert OccursAt(r, "digraph", 0);
      assert r[..|WrapHead|] == WrapHead;
      assert r[|WrapHead|..|r| - |WrapTail|] == text;
      r
  }

  /** The usage the text phase logs once its reply is in. */
  const TextUsage: AgentEntry := AgentEntry("mindmap_text", 800, 500, 0.03)

  /** The usage the image phase logs once the picture is written. */
  const ImageUsage: AgentEntry := AgentEntry("mindmap_image", 0, 300, 0.02)

  /** What `run_mindmap_agent` returns. */
  datatype MindMapResult = MindMapResult(textMap: string, dotPath: string, imagePath: string)

  /** The set-up before either phase, none of it guarded: the API key
      lookup, the client (`clientError` is what `OpenAI(...)` raised, if
      anything), the diagrams directory and its creation (`mkdirError`).
      Yields the directory or the exception that escapes. */
  function Setup(settings: map<string, JValue>, clientError: Option<string>, mkdirError: Option<string>): (r: Outcome<string>)
    ensures r.Ok? <==> && "env" in settings && settings["env"].JObj?
                       && "OPENAI_API_KEY" in settings["env"].fields
                       && clientError.None? && DiagramsDir(settings).Ok? && mkdirError.None?
    ensures r.Ok? ==> r.value == DiagramsDir(settings).value
    ensures "env" !in settings ==> r == Raise(KeyErrorMessage("env"))
  {
    var env :- if "env" in settings then Ok(settings["env"]) else Raise(KeyErrorMessage("env"));
    var _ :- Index(env, "OPENAI_API_KEY");
    var _ :- if clientError.Some? then Raise(clientError.value) else Ok(());
    var dir :- DiagramsDir(settings);
    if mkdirError.Some? then Raise(mkdirError.value) else Ok(dir)
  }

  /** `run_mindmap_agent(requirement_text)`. `textReply` is the chat
      completion's stripped-to-be content for the requirement text, or the
      exception raised while getting it; `dotWritten` is whether writing
      `mindmap.dot` succeeded; `imageSaved` whether generating, decoding and
      writing the picture did. The set-up failures escape as `Raise`. */
  method RunMindmapAgent(tracker: TokenTracker, requirementText: string, settings: map<string, JValue>,
                         clientError: Option<string>, mkdirError: Option<string>,
                         textReply: string -> Outcome<string>, dotWritten: bool, imageSaved: bool)
    returns (r: Outcome<MindMapResult>)
    requires tracker.Valid()
    modifies tracker
    ensures tracker.Valid()
    ensures tracker.callback == old(tracker.callback)
    ensures r.Ok? <==> Setup(settings, clientError, mkdirError).Ok?
    ensures r.Raise? ==> r.msg == Setup(settings, clientError, mkdirError).msg && tracker.agents == old(tracker.agents)
    ensures r.Ok? ==>
              var dir := Setup(settings, clientError, mkdirError).value;
              var reply := textReply(requirementText);
              && r.value.dotPath == JoinPath(dir, "mindmap.dot")
              && r.value.textMap == (if reply.Ok? && dotWritten then WrapMindMap(Strip(reply.value)) else TextMapError)
              && r.value.imagePath == (if imageSaved then JoinPath(dir, "mindmap.png") else "")
              && tracker.agents == old(tracker.agents) + (if reply.Ok? then [TextUsage] else [])
                                                       + (if imageSaved then [ImageUsage] else [])
    ensures r.Ok? ==>
              var logged := (if textReply(requirementText).Ok? then [TextUsage] else [])
                            + (if imageSaved then [ImageUsage] else []);
              tracker.notified == old(tracker.notified) + Notices(tracker.callback, old(tracker.agents), logged)
    ensures r.Raise? ==> tracker.notified == old(tracker.notified)
    ensures r.Ok? ==> Contains(r.value.textMap, "digraph") || r.value.textMap == TextMapError
  {
    var setup := Setup(settings, clientError, mkdirError);
    if setup.Raise? {
      return Raise(setup.msg);
    }
    var dir := setup.value;
    var textMap := "";
    var reply := textReply(requirementText);
    ghost var textLogged := if reply.Ok? then [TextUsage] else [];
    ghost var imageLogged := if imageSaved then [ImageUsage] else [];
    NoticesAppend(tracker.callback, tracker.agents, textLogged, imageLogged);
    AppendAssoc(tracker.notified, Notices(tracker.callback, tracker.agents, textLogged),
                Notices(tracker.callback, tracker.agents + textLogged, imageLogged));
    if reply.Ok? {
      textMap := Strip(reply.value);
      tracker.LogAgent(TextUsage.agent, TextUsage.inputTokens, TextUsage.outputTokens, TextUsage.costUsd);
      textMap := WrapMindMap(textMap);
      if !dotWritten {
        textMap := TextMapError;
      }
    } else {
      textMap := TextMapError;
    }
    var imagePath := JoinPath(dir, "mindmap.png");
    if imageSaved {
      tracker.LogAgent(ImageUsage.agent, ImageUsage.inputTokens, ImageUsage.outputTokens, ImageUsage.costUsd);
    } else {
      imagePath := "";
    }
    r := Ok(MindMapResult(textMap, JoinPath(dir, "mindmap.dot"), imagePath));
  }

  /** A settings dict from `load_settings()` always has the key the agent
      reads first, so only the client, the paths entry and the directory can
      stop it. */
  lemma LoadedSettingsHaveKey(loaded: Outcome<JValue>, env: Env)
    requires loaded.Ok? && loaded.value.JObj?
    ensures var settings := LoadSettings(loaded, env);
            Setup(settings, None, None).Ok? <==> DiagramsDir(settings).Ok?
  {
  }
}
