/** agents/flow_agent.py: the DOT text asked of the model, cleaned of
    Markdown fences, replaced by a fixed graph when it is not a digraph,
    saved and rendered. */
module FlowAgent {
  import opened Wrappers
  import opened Json
  import opened Text
  import opened Config

  /** What the prompt's `requirements_json` is formatted from. */
  datatype PromptSource =
    | Dumped(parsed: JValue)      // json.dumps(requirements["parsed_json"], indent=2)
    | Readable(readable: JValue)  // requirements.get("readable_text", "")
    | Repr(value: JValue)         // str(requirements), for a value that is not a dict

  /** The choice at the top of `run_flow_agent`: the structured requirements
      when they are truthy, the readable text otherwise. */
  function SourceOf(requirements: JValue): (src: PromptSource)
    ensures requirements.JObj? && "parsed_json" in requirements.fields && Truthy(requirements.fields["parsed_json"]) ==>
              src == Dumped(requirements.fields["parsed_json"])
    ensures (requirements.JObj? && !("parsed_json" in requirements.fields && Truthy(requirements.fields["parsed_json"]))) ==>
              src.Readable? && ("readable_text" in requirements.fields ==> src.readable == requirements.fields["readable_text"])
              && ("readable_text" !in requirements.fields ==> src.readable == JStr(""))
    ensures !requirements.JObj? ==> src == Repr(requirements)
  {
    match requirements
    case JObj(fields) =>
      var parsed := Lookup(fields, "parsed_json", JObj(map[]));
      if Truthy(parsed) then Dumped(parsed) else Readable(Lookup(fields, "readable_text", JStr("")))
    case _ => Repr(requirements)
  }

  /** The regex class `[a-zA-Z]`. */
  predicate IsAsciiLetter(c: char) {
    ('a' <= c <= 'z') || ('A' <= c <= 'Z')
  }

  /** `re.sub(r"^```[a-zA-Z]*\s*", "", s)`: an opening fence, its language
      tag and the whitespace after it. */
  function StripLeadingFence(s: string): (r: string)
    ensures !StartsWith(s, "```") ==> r == s
    ensures StartsWith(s, "```") ==>
              && |r| <= |s| - 3 && r == s[|s| - |r|..]
              && (forall k :: 3 <= k < |s| - |r| ==> IsAsciiLetter(s[k]) || IsSpace(s[k]))
              && (r != [] ==> !IsSpace(r[0]))
  {
    if StartsWith(s, "```") then
      var tagEnd := FirstKept(s, IsAsciiLetter, 3);
      s[FirstKept(s, IsSpace, tagEnd)..]
    else s
  }

  /** `re.sub(r"```$", "", s)`: without MULTILINE, `$` matches at the end and
      also just before a final newline, which is kept. */
  function StripTrailingFence(s: string): (r: string)
    ensures EndsWith(s, "```") ==> r == s[..|s| - 3]
    ensures EndsWith(s, "```\n") ==> |s| >= 4 && r == s[..|s| - 4] + "\n"
    ensures !EndsWith(s, "```") && !EndsWith(s, "```\n") ==> r == s
  {
    FenceEndsDiffer(s);
    if EndsWith(s, "```") then s[..|s| - 3]
    else if EndsWith(s, "```\n") then s[..|s| - 4] + "\n"
    else s
  }

  /** Text cannot end both with a fence and with a fence and a newline:
      the last characters differ. */
  lemma FenceEndsDiffer(s: string)
    ensures !(EndsWith(s, "```") && EndsWith(s, "```\n"))
  {
    if EndsWith(s, "```") {
      assert s[|s| - 3..][2] == s[|s| - 1] == '`';
    }
    if EndsWith(s, "```\n") {
      assert s[|s| - 4..][3] == s[|s| - 1] == '\n';
    }
  }

  /** The characters of `clean_dot.strip("` \n\r\t")`. */
  const EdgeChars: set<char> := {'`', ' ', '\n', '\r', '\t'}

  predicate IsEdgeChar(c: char) {
    c in EdgeChars
  }

  /** The three cleaning steps applied to the stripped reply. */
  function CleanDot(dotCode: string): (r: string)
    ensures r != [] ==> r[0] !in EdgeChars && r[|r| - 1] !in EdgeChars
  {
    StripBy(StripTrailingFence(StripLeadingFence(dotCode)), IsEdgeChar)
  }

  /** The graph used when the reply holds no DOT code. */
  const FallbackDot: string :=
    "digraph G {\n" +
    "  label=\"System Flow\";\n" +
    "  node [shape=box, style=filled, color=lightblue];\n" +
    "  Start -> Process -> Output;\n" +
    "}"

  /** The validation step: text that is empty or never says `digraph` is
      replaced by the fallback graph. */
  function ValidDot(clean: string): (r: string)
    ensures Contains(r, "digraph")
    ensures clean != [] && Contains(clean, "digraph") ==> r == clean
    ensures clean == [] || !Contains(clean, "digraph") ==> r == FallbackDot
  {
    if clean == [] || !Contains(clean, "digraph") then
      assert OccursAt(FallbackDot, "digraph", 0);
      FallbackDot
    else clean
  }

  /** The DOT text saved for a model reply (`str(response).strip()`, cleaned,
      validated). */
  function DotFor(content: string): (r: string)
    ensures Contains(r, "digraph")
  {
    ValidDot(CleanDot(Strip(content)))
  }

  /** The outcome of `run_flow_agent`: the returned path and the DOT text
      written to disk, if any. */
  datatype FlowResult = FlowResult(path: string, savedDot: Option<string>)

  /** `run_flow_agent(requirements)`. `generate` is the model call on the
      formatted prompt (prompt loading, `get_llm("flow")`, `invoke`);
      `dirsReady` is whether `ensure_dirs()` returned, `saveOk` whether
      `save_text` did, `rendered` whether the `dot` subprocess succeeded.
      `settings` is the module-level settings dict. */
  function RunFlowAgent(requirements: JValue, generate: PromptSource -> Outcome<string>,
                        settings: map<string, JValue>, dirsReady: bool, saveOk: bool, rendered: bool): (r: FlowResult)
    ensures r.path != [] <==> generate(SourceOf(requirements)).Ok? && dirsReady && DiagramsDir(settings).Ok? && saveOk
    ensures r.savedDot.Some? <==> r.path != []
    ensures r.path != [] ==>
              && r.savedDot == Some(DotFor(generate(SourceOf(requirements)).value))
              && r.path == JoinPath(DiagramsDir(settings).value, if rendered then "system_flow.png" else "system_flow.dot")
    ensures r.savedDot.Some? ==> Contains(r.savedDot.value, "digraph")
  {
    match generate(SourceOf(requirements))
    case Raise(_) => FlowResult("", None)
    case Ok(content) =>
      var dot := DotFor(content);
      if !dirsReady then FlowResult("", None)
      else match DiagramsDir(settings)
        case Raise(_) => FlowResult("", None)
        case Ok(dir) =>
          if !saveOk then FlowResult("", None)
          else if rendered then FlowResult(JoinPath(dir, "system_flow.png"), Some(dot))
          else FlowResult(JoinPath(dir, "system_flow.dot"), Some(dot))
  }

  /** A reply that is already bare DOT is saved as it is. */
  lemma PlainDotUnchanged(content: string)
    requires Contains(content, "digraph")
    requires content[0] !in EdgeChars && !IsSpace(content[0])
    requires content[|content| - 1] !in EdgeChars && !IsSpace(content[|content| - 1])
    ensures DotFor(content) == content
  {
    assert content != [];
    StripUnchanged(content, IsSpace);
    assert !StartsWith(content, "```");
    assert StripLeadingFence(content) == content;
    assert StripTrailingFence(content) == content;
    StripUnchanged(content, IsEdgeChar);
  }

  /** An opening fence, its language tag `tag` and the whitespace `ws`
      after it are removed up to the first character of `rest`. */
  lemma LeadingFenceRemoved(tag: string, ws: string, rest: string)
    requires forall k :: 0 <= k < |tag| ==> IsAsciiLetter(tag[k])
    requires forall k :: 0 <= k < |ws| ==> IsSpace(ws[k])
    requires rest == [] || !IsSpace(rest[0])
    requires ws == [] && rest != [] ==> !IsAsciiLetter(rest[0])
    ensures StripLeadingFence("```" + tag + ws + rest) == rest
  {
    var s := "```" + tag + ws + rest;
    var n := 3 + |tag|;
    var m := n + |ws|;
    assert s[..3] == "```";
    assert forall k :: 3 <= k < n ==> s[k] == tag[k - 3];
    assert forall k :: n <= k < m ==> s[k] == ws[k - n];
    assert m < |s| ==> s[m] == rest[0];
    FirstKeptAt(s, IsAsciiLetter, 3, n);
    FirstKeptAt(s, IsSpace, n, m);
    assert s[m..] == rest;
  }

  /** A closing fence at the very end is removed. */
  lemma TrailingFenceRemoved(t: string)
    ensures StripTrailingFence(t + "```") == t
  {
    var s := t + "```";
    assert s[|s| - 3..] == "```";
    assert s[..|s| - 3] == t;
  }

  /** A fenced reply ```` ```tag\n<dot>\n``` ```` is saved as the DOT between
      the fences. */
  lemma FencedDotUnwrapped(tag: string, body: string)
    requires forall k :: 0 <= k < |tag| ==> IsAsciiLetter(tag[k])
    requires Contains(body, "digraph")
    requires body[0] !in EdgeChars && !IsSpace(body[0])
    requires body[|body| - 1] !in EdgeChars
    ensures DotFor("```" + tag + "\n" + body + "\n```") == body
  {
    var content := "```" + tag + "\n" + body + "\n```";
    assert content[0] == '`' && content[|content| - 1] == '`';
    StripUnchanged(content, IsSpace);
    FencedDotCleaned(tag, body);
  }

  /** The cleaning steps on a fenced reply leave the text between the fences. */
  lemma FencedDotCleaned(tag: string, body: string)
    requires forall k :: 0 <= k < |tag| ==> IsAsciiLetter(tag[k])
    requires body != [] && body[0] !in EdgeChars && !IsSpace(body[0])
    requires body[|body| - 1] !in EdgeChars
    ensures CleanDot("```" + tag + "\n" + body + "\n```") == body
  {
    var fenced := body + "\n```";
    var t := body + "\n";
    ConcatAssoc("```" + tag + "\n", body, "\n```");
    LeadingFenceRemoved(tag, "\n", fenced);
    assert fenced == t + "```";
    TrailingFenceRemoved(t);
    EdgeNewlineStripped(body);
  }

  lemma ConcatAssoc(a: string, b: string, c: string)
    ensures a + b + c == a + (b + c)
  {
  }

  /** Edge stripping removes the newline left before the closing fence. */
  lemma EdgeNewlineStripped(body: string)
    requires body != [] && body[0] !in EdgeChars && body[|body| - 1] !in EdgeChars
    ensures StripBy(body + "\n", IsEdgeChar) == body
  {
    var t := body + "\n";
    TrimStartUnchanged(t, IsEdgeChar);
    assert t[..|t| - 1] == body;
  }

  /** A reply that puts `digraph` right after the opening fence loses it to
      the language-tag pattern `[a-zA-Z]*` (and the whitespace after it to
      `\s*`): unless the rest says `digraph` again, the fallback graph is
      saved. */
  lemma LanguageTagSwallowsDigraph(ws: string, body: string)
    requires forall k :: 0 <= k < |ws| ==> IsSpace(ws[k])
    requires body != [] && !IsSpace(body[0]) && !IsEdgeChar(body[0]) && !IsEdgeChar(body[|body| - 1])
    requires ws == [] ==> !IsAsciiLetter(body[0])
    requires !Contains(body, "digraph")
    ensures DotFor("```digraph" + ws + body + "```") == FallbackDot
  {
    var content := "```digraph" + ws + body + "```";
    assert content[0] == '`' && content[|content| - 1] == '`';
    StripUnchanged(content, IsSpace);
    DigraphTagCleaned(ws, body);
  }

  /** The cleaning steps on ```` ```digraph<ws><body>``` ```` leave `body`. */
  lemma DigraphTagCleaned(ws: string, body: string)
    requires forall k :: 0 <= k < |ws| ==> IsSpace(ws[k])
    requires body != [] && !IsSpace(body[0]) && !IsEdgeChar(body[0]) && !IsEdgeChar(body[|body| - 1])
    requires ws == [] ==> !IsAsciiLetter(body[0])
    ensures CleanDot("```digraph" + ws + body + "```") == body
  {
    assert "```digraph" + ws + body + "```" == "```" + "digraph" + ws + (body + "```");
    LeadingFenceRemoved("digraph", ws, body + "```");
    TrailingFenceRemoved(body);
    StripUnchanged(body, IsEdgeChar);
  }
}
