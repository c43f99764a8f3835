/** core/llm.py: the process-wide usage tracker, the price table, the
    usage-reporting path of `LLMWrapper.invoke` and the configuration
    fallback chains of `get_llm`. */
module Llm {
  import opened Wrappers
  import opened Json
  import opened Text
  import opened Config

  /** One element of the tracker's `agents` list: a single logged call. */
  datatype AgentEntry = AgentEntry(agent: string, inputTokens: nat, outputTokens: nat, costUsd: real)

  /** What `summary()` reports. */
  datatype UsageSummary = UsageSummary(
    totalInputTokens: nat,
    totalOutputTokens: nat,
    approxCostUsd: real,
    agents: seq<AgentEntry>)

  /** The identity of a registered callback; calling it is recorded, not run. */
  datatype Observer = Observer(id: nat)

  function InputSum(es: seq<AgentEntry>): nat {
    if es == [] then 0 else es[0].inputTokens + InputSum(es[1..])
  }

  function OutputSum(es: seq<AgentEntry>): nat {
    if es == [] then 0 else es[0].outputTokens + OutputSum(es[1..])
  }

  function CostSum(es: seq<AgentEntry>): real {
    if es == [] then 0.0 else es[0].costUsd + CostSum(es[1..])
  }

  /** Appending one entry adds exactly its figures to each sum. */
  lemma {:induction false} SumsAppend(es: seq<AgentEntry>, e: AgentEntry)
    ensures InputSum(es + [e]) == InputSum(es) + e.inputTokens
    ensures OutputSum(es + [e]) == OutputSum(es) + e.outputTokens
    ensures CostSum(es + [e]) == CostSum(es) + e.costUsd
  {
    if es != [] {
      assert (es + [e])[1..] == es[1..] + [e];
      SumsAppend(es[1..], e);
    }
  }

  /** The summary a valid tracker reports once `logged` are its entries. */
  function SummaryOf(logged: seq<AgentEntry>): UsageSummary {
    UsageSummary(InputSum(logged), OutputSum(logged), CostSum(logged), logged)
  }

  /**
   * The calls the callback `cb` receives while `entries` are logged one by
   * one after `logged`: one per entry, each with the summary just after it.
   */
  function Notices(cb: Option<Observer>, logged: seq<AgentEntry>, entries: seq<AgentEntry>): seq<(Observer, UsageSummary)> {
    if cb.None? || entries == [] then []
    else Notices(cb, logged, entries[..|entries| - 1]) + [(cb.value, SummaryOf(logged + entries))]
  }

  /** Without a callback nobody is notified; with one, once per logged entry. */
  lemma {:induction false} NoticesCount(cb: Option<Observer>, logged: seq<AgentEntry>, entries: seq<AgentEntry>)
    ensures |Notices(cb, logged, entries)| == if cb.Some? then |entries| else 0
  {
    if cb.Some? && entries != [] {
      NoticesCount(cb, logged, entries[..|entries| - 1]);
    }
  }

  /** Logging `e1` then `e2` notifies as `e1` does, then as `e2` does after `e1`. */
  lemma {:induction false} NoticesAppend(cb: Option<Observer>, logged: seq<AgentEntry>, e1: seq<AgentEntry>, e2: seq<AgentEntry>)
    ensures Notices(cb, logged, e1 + e2) == Notices(cb, logged, e1) + Notices(cb, logged + e1, e2)
  {
    if cb.Some? && e2 != [] {
      assert (e1 + e2)[..|e1 + e2| - 1] == e1 + e2[..|e2| - 1];
      assert logged + (e1 + e2) == (logged + e1) + e2;
      NoticesAppend(cb, logged, e1, e2[..|e2| - 1]);
    } else if e2 == [] {
      assert e1 + e2 == e1;
    }
  }

  lemma AppendAssoc<T>(a: seq<T>, b: seq<T>, c: seq<T>)
    ensures (a + b) + c == a + (b + c)
  {
  }

  /** Logging a single entry notifies at most once, with the summary after it. */
  lemma NoticesOne(cb: Option<Observer>, logged: seq<AgentEntry>, e: AgentEntry)
    ensures Notices(cb, logged, [e]) == if cb.Some? then [(cb.value, SummaryOf(logged + [e]))] else []
  {
    assert [e][..0] == [];
  }

  /** The JSON form of a summary, as the pipelines store it under `token_summary`. */
  function SummaryJson(s: UsageSummary): JValue {
    JObj(map[
      "total_input_tokens" := JInt(s.totalInputTokens),
      "total_output_tokens" := JInt(s.totalOutputTokens),
      "approx_cost_usd" := JReal(s.approxCostUsd),
      "agents" := JList(seq(|s.agents|, i requires 0 <= i < |s.agents| =>
        JObj(map[
          "agent" := JStr(s.agents[i].agent),
          "input_tokens" := JInt(s.agents[i].inputTokens),
          "output_tokens" := JInt(s.agents[i].outputTokens),
          "cost_usd" := JReal(s.agents[i].costUsd)])))])
  }

  class TokenTracker {
    var totalInputTokens: nat
    var totalOutputTokens: nat
    var totalCostUsd: real
    var agents: seq<AgentEntry>
    var callback: Option<Observer>
    /** Every call made to the callback, with the summary it was given. */
    ghost var notified: seq<(Observer, UsageSummary)>

    /** Each running total is the sum over the calls logged since the last reset. */
    ghost predicate Valid()
      reads this
    {
      && totalInputTokens == InputSum(agents)
      && totalOutputTokens == OutputSum(agents)
      && totalCostUsd == CostSum(agents)
    }

    function Summary(): (s: UsageSummary)
      reads this
      ensures Valid() ==> s.totalInputTokens == InputSum(s.agents) && s.totalOutputTokens == OutputSum(s.agents)
      ensures Valid() ==> s.approxCostUsd == CostSum(s.agents)
      ensures s.agents == agents
    {
      UsageSummary(totalInputTokens, totalOutputTokens, totalCostUsd, agents)
    }

    constructor ()
      ensures Valid() && agents == [] && callback == None && notified == []
      ensures totalInputTokens == 0 && totalOutputTokens == 0 && totalCostUsd == 0.0
    {
      totalInputTokens, totalOutputTokens, totalCostUsd, agents := 0, 0, 0.0, [];
      callback := None;
      notified := [];
    }

    /** Zeroes the totals and empties the list; the callback stays registered. */
    method Reset()
      modifies this
      ensures Valid() && agents == []
      ensures totalInputTokens == 0 && totalOutputTokens == 0 && totalCostUsd == 0.0
      ensures callback == old(callback) && notified == old(notified)
    {
      totalInputTokens, totalOutputTokens, totalCostUsd, agents := 0, 0, 0.0, [];
    }

    /** Adds one call to the totals and the list, then notifies the callback once. */
    method LogAgent(name: string, inputTokens: nat, outputTokens: nat, cost: real)
      requires Valid()
      modifies this
      ensures Valid()
      ensures agents == old(agents) + [AgentEntry(name, inputTokens, outputTokens, cost)]
      ensures totalInputTokens == old(totalInputTokens) + inputTokens
      ensures totalOutputTokens == old(totalOutputTokens) + outputTokens
      ensures totalCostUsd == old(totalCostUsd) + cost
      ensures callback == old(callback)
      ensures notified == old(notified) + if callback.Some? then [(callback.value, Summary())] else []
      ensures notified == old(notified) + Notices(callback, old(agents), [AgentEntry(name, inputTokens, outputTokens, cost)])
    {
      SumsAppend(agents, AgentEntry(name, inputTokens, outputTokens, cost));
      NoticesOne(callback, agents, AgentEntry(name, inputTokens, outputTokens, cost));
      totalInputTokens := totalInputTokens + inputTokens;
      totalOutputTokens := totalOutputTokens + outputTokens;
      totalCostUsd := totalCostUsd + cost;
      agents := agents + [AgentEntry(name, inputTokens, outputTokens, cost)];
      if callback.Some? {
        notified := notified + [(callback.value, Summary())];
      }
    }

    /** Registers `cb` in place of any earlier callback. */
    method SetCallback(cb: Option<Observer>)
      modifies this
      ensures callback == cb
      ensures agents == old(agents) && notified == old(notified)
      ensures totalInputTokens == old(totalInputTokens) && totalOutputTokens == old(totalOutputTokens)
      ensures totalCostUsd == old(totalCostUsd)
    {
      callback := cb;
    }
  }

  /** USD per token. */
  datatype Rates = Rates(input: real, output: real)

  /** The `pricing` table of `estimate_cost`. */
  function PriceTable(model: JValue): Option<Rates> {
    match model
    case JStr(name) =>
      if name == "gpt-4o" then Some(Rates(0.000005, 0.000015))
      else if name == "gpt-4o-mini" then Some(Rates(0.0000015, 0.000002))
      else if name == "gpt-5" then Some(Rates(0.000006, 0.000018))
      else if name == "gpt-5-vision" then Some(Rates(0.000007, 0.000020))
      else None
    case _ => None
  }

  /** `pricing.get(model, pricing["gpt-4o"])`. */
  function RatesFor(model: JValue): (r: Rates)
    ensures r.input >= 0.0 && r.output >= 0.0
    ensures PriceTable(model).None? ==> r == Rates(0.000005, 0.000015)
  {
    PriceTable(model).GetOr(Rates(0.000005, 0.000015))
  }

  /** `estimate_cost(model, input_tokens, output_tokens)`. */
  function EstimateCost(model: JValue, inputTokens: nat, outputTokens: nat): (cost: real)
    ensures cost >= 0.0
    ensures inputTokens == 0 && outputTokens == 0 ==> cost == 0.0
  {
    inputTokens as real * RatesFor(model).input + outputTokens as real * RatesFor(model).output
  }

  /** A model missing from the table is priced as "gpt-4o". */
  lemma UnknownModelCost(model: JValue, inputTokens: nat, outputTokens: nat)
    requires PriceTable(model).None?
    ensures EstimateCost(model, inputTokens, outputTokens) == EstimateCost(JStr("gpt-4o"), inputTokens, outputTokens)
  {
  }

  /** The cost never decreases when either count grows. */
  lemma EstimateCostMonotone(model: JValue, in1: nat, out1: nat, in2: nat, out2: nat)
    requires in1 <= in2 && out1 <= out2
    ensures EstimateCost(model, in1, out1) <= EstimateCost(model, in2, out2)
  {
    var r := RatesFor(model);
    assert (in2 - in1) as real * r.input >= 0.0;
    assert (out2 - out1) as real * r.output >= 0.0;
  }

  /** What `get_llm` passes to the `LLMWrapper` constructor. */
  datatype LlmWrapper = LlmWrapper(model: JValue, temperature: JValue, maxTokens: JValue)

  /** The `llm` section of the settings, `{}` when absent. */
  function LlmSection(settings: map<string, JValue>): JValue {
    Lookup(settings, "llm", JObj(map[]))
  }

  predicate HasLlmKey(settings: map<string, JValue>, key: string) {
    "llm" in settings && settings["llm"].JObj? && key in settings["llm"].fields
  }

  /** The `llm` section is absent or a mapping, so `llm_cfg.get` does not raise. */
  predicate LlmSectionIsDict(settings: map<string, JValue>) {
    "llm" !in settings || settings["llm"].JObj?
  }

  /** `agents_cfg.get(agent_name, {}).get("model") or llm_cfg.get("model")
      or os.getenv("OPENAI_MODEL", "gpt-4o")`; `or` evaluates its right
      operand only when the left one is falsy. */
  function ResolveModel(settings: map<string, JValue>, env: Env, agentName: string): (r: Outcome<JValue>)
    ensures HasAgentModel(settings, agentName) && Truthy(AgentModelEntry(settings, agentName)) ==>
              r == Ok(AgentModelEntry(settings, agentName))
    ensures AgentModelLookup(settings, agentName).Ok?
            && !(HasAgentModel(settings, agentName) && Truthy(AgentModelEntry(settings, agentName)))
            && HasLlmKey(settings, "model") && Truthy(settings["llm"].fields["model"]) ==>
              r == Ok(settings["llm"].fields["model"])
    ensures AgentModelLookup(settings, agentName).Ok?
            && !(HasAgentModel(settings, agentName) && Truthy(AgentModelEntry(settings, agentName)))
            && LlmSectionIsDict(settings) && !(HasLlmKey(settings, "model") && Truthy(settings["llm"].fields["model"])) ==>
              r == Ok(JStr(EnvModel(env)))
    ensures r.Ok? && !Truthy(r.value) ==> "OPENAI_MODEL" in env && env["OPENAI_MODEL"] == ""
  {
    var fromAgent :- AgentModelLookup(settings, agentName);
    if Truthy(fromAgent) then Ok(fromAgent)
    else
      var fromLlm :- GetOr(LlmSection(settings), "model", JNull);
      if Truthy(fromLlm) then Ok(fromLlm) else Ok(JStr(EnvModel(env)))
  }

  /** `llm_cfg.get("temperature") or float(os.getenv("OPENAI_TEMPERATURE", 0.3))`;
      `parseFloat` is Python's `float` on a string, None where it raises. */
  function ResolveTemperature(settings: map<string, JValue>, env: Env, parseFloat: string -> Option<real>): (r: Outcome<JValue>)
    ensures r.Raise? ==> !LlmSectionIsDict(settings) || "OPENAI_TEMPERATURE" in env
    ensures (LlmSectionIsDict(settings) && "OPENAI_TEMPERATURE" !in env
             && !(HasLlmKey(settings, "temperature") && Truthy(settings["llm"].fields["temperature"]))) ==>
              r == Ok(JReal(0.3))
    ensures HasLlmKey(settings, "temperature") && Truthy(settings["llm"].fields["temperature"]) ==>
              r == Ok(settings["llm"].fields["temperature"])
    ensures (LlmSectionIsDict(settings) && "OPENAI_TEMPERATURE" in env
             && !(HasLlmKey(settings, "temperature") && Truthy(settings["llm"].fields["temperature"]))) ==>
              && (r.Ok? <==> parseFloat(env["OPENAI_TEMPERATURE"]).Some?)
              && (r.Ok? ==> r == Ok(JReal(parseFloat(env["OPENAI_TEMPERATURE"]).value)))
  {
    var configured :- GetOr(LlmSection(settings), "temperature", JNull);
    if Truthy(configured) then Ok(configured)
    else if "OPENAI_TEMPERATURE" !in env then Ok(JReal(0.3))
    else
      match parseFloat(env["OPENAI_TEMPERATURE"])
      case Some(x) => Ok(JReal(x))
      case None => Raise("could not convert string to float: '" + env["OPENAI_TEMPERATURE"] + "'")
  }

  /** `llm_cfg.get("max_tokens") or int(os.getenv("OPENAI_MAX_TOKENS", 6000))`;
      `parseInt` is Python's `int` on a string, None where it raises. */
  function ResolveMaxTokens(settings: map<string, JValue>, env: Env, parseInt: string -> Option<int>): (r: Outcome<JValue>)
    ensures r.Raise? ==> !LlmSectionIsDict(settings) || "OPENAI_MAX_TOKENS" in env
    ensures (LlmSectionIsDict(settings) && "OPENAI_MAX_TOKENS" !in env
             && !(HasLlmKey(settings, "max_tokens") && Truthy(settings["llm"].fields["max_tokens"]))) ==>
              r == Ok(JInt(6000))
    ensures HasLlmKey(settings, "max_tokens") && Truthy(settings["llm"].fields["max_tokens"]) ==>
              r == Ok(settings["llm"].fields["max_tokens"])
    ensures (LlmSectionIsDict(settings) && "OPENAI_MAX_TOKENS" in env
             && !(HasLlmKey(settings, "max_tokens") && Truthy(settings["llm"].fields["max_tokens"]))) ==>
              && (r.Ok? <==> parseInt(env["OPENAI_MAX_TOKENS"]).Some?)
              && (r.Ok? ==> r == Ok(JInt(parseInt(env["OPENAI_MAX_TOKENS"]).value)))
  {
    var configured :- GetOr(LlmSection(settings), "max_tokens", JNull);
    if Truthy(configured) then Ok(configured)
    else if "OPENAI_MAX_TOKENS" !in env then Ok(JInt(6000))
    else
      match parseInt(env["OPENAI_MAX_TOKENS"])
      case Some(n) => Ok(JInt(n))
      case None => Raise("invalid literal for int() with base 10: '" + env["OPENAI_MAX_TOKENS"] + "'")
  }

  /** A configured temperature of 0 is falsy, so it is replaced by the
      environment's value or 0.3. */
  lemma ZeroTemperatureReplaced(settings: map<string, JValue>, env: Env, parseFloat: string -> Option<real>)
    requires "llm" in settings && settings["llm"].JObj?
    requires "temperature" in settings["llm"].fields && settings["llm"].fields["temperature"] in {JInt(0), JReal(0.0)}
    requires "OPENAI_TEMPERATURE" !in env
    ensures ResolveTemperature(settings, env, parseFloat) == Ok(JReal(0.3))
  {
  }

  /** `get_llm(agent_name)` on loaded settings: the three resolutions in
      order, then the wrapper's constructor, which raises without an API key. */
  function GetLlm(settings: map<string, JValue>, env: Env, agentName: string,
                  parseFloat: string -> Option<real>, parseInt: string -> Option<int>): (r: Outcome<LlmWrapper>)
    ensures r.Ok? <==> && ResolveModel(settings, env, agentName).Ok?
                       && ResolveTemperature(settings, env, parseFloat).Ok?
                       && ResolveMaxTokens(settings, env, parseInt).Ok?
                       && "OPENAI_API_KEY" in env && env["OPENAI_API_KEY"] != ""
    ensures r.Ok? ==> r.value == LlmWrapper(ResolveModel(settings, env, agentName).value,
                                            ResolveTemperature(settings, env, parseFloat).value,
                                            ResolveMaxTokens(settings, env, parseInt).value)
  {
    var model :- ResolveModel(settings, env, agentName);
    var temperature :- ResolveTemperature(settings, env, parseFloat);
    var maxTokens :- ResolveMaxTokens(settings, env, parseInt);
    if !Truthy(GetEnvValue(env, "OPENAI_API_KEY")) then Raise("Missing OPENAI_API_KEY in environment or .env")
    else Ok(LlmWrapper(model, temperature, maxTokens))
  }

  /** The usage path of `LLMWrapper.invoke`. `completion` is the chat
      completion's message content, or the exception the client raised;
      `countTokens(text, model)` is the tiktoken count. On success the usage
      is logged once under `agentName` and the stripped text returned; on
      failure the exception is re-raised and the tracker is not touched. */
  method Invoke(llm: LlmWrapper, tracker: TokenTracker, prompt: string, agentName: string,
                completion: Outcome<string>, countTokens: (string, JValue) -> nat)
    returns (r: Outcome<string>)
    requires tracker.Valid()
    modifies tracker
    ensures tracker.Valid()
    ensures completion.Raise? ==> r == completion && unchanged(tracker)
    ensures completion.Ok? ==> r == Ok(Strip(completion.value))
    ensures completion.Ok? ==>
              var inputTokens := countTokens(prompt, llm.model);
              var outputTokens := countTokens(Strip(completion.value), llm.model);
              tracker.agents == old(tracker.agents) +
                [AgentEntry(agentName, inputTokens, outputTokens, EstimateCost(llm.model, inputTokens, outputTokens))]
    ensures completion.Ok? ==> tracker.totalInputTokens == old(tracker.totalInputTokens) + countTokens(prompt, llm.model)
    ensures tracker.callback == old(tracker.callback)
    ensures completion.Ok? ==>
              tracker.notified == old(tracker.notified) +
                if tracker.callback.Some? then [(tracker.callback.value, tracker.Summary())] else []
    ensures completion.Ok? ==>
              var inputTokens := countTokens(prompt, llm.model);
              var outputTokens := countTokens(Strip(completion.value), llm.model);
              tracker.notified == old(tracker.notified) + Notices(tracker.callback, old(tracker.agents),
                [AgentEntry(agentName, inputTokens, outputTokens, EstimateCost(llm.model, inputTokens, outputTokens))])
  {
    var inputTokens := countTokens(prompt, llm.model);
    match completion
    case Raise(msg) =>
      r := Raise(msg);
    case Ok(content) =>
      var outputText := Strip(content);
      var outputTokens := countTokens(outputText, llm.model);
      var cost := EstimateCost(llm.model, inputTokens, outputTokens);
      tracker.LogAgent(agentName, inputTokens, outputTokens, cost);
      r := Ok(outputText);
  }
}
