/** Settings loading and lookups of core/config.py, plus the settings
    lookups the agents perform on the loaded dict. */
module Config {
  import opened Wrappers
  import opened Json

  /** The process environment: a variable is either unset or holds a string. */
  type Env = map<string, string>

  /** `os.getenv(name, default)`. */
  function GetEnv(env: Env, name: string, default: string): string {
    if name in env then env[name] else default
  }

  /** `os.getenv(name)`, which is None when the variable is unset. */
  function GetEnvValue(env: Env, name: string): JValue {
    if name in env then JStr(env[name]) else JNull
  }

  /** The `env` section that `load_settings` installs. */
  function EnvSection(env: Env): JValue {
    JObj(map[
      "OPENAI_API_KEY" := GetEnvValue(env, "OPENAI_API_KEY"),
      "OPENAI_MODEL" := JStr(GetEnv(env, "OPENAI_MODEL", "gpt-4o")),
      "OPENAI_VISION_MODEL" := JStr(GetEnv(env, "OPENAI_VISION_MODEL", "gpt-4o-mini")),
      "LOG_LEVEL" := JStr(GetEnv(env, "LOG_LEVEL", "INFO"))])
  }

  /** With none of its variables set, the env section holds the documented
      defaults and a null API key. */
  lemma EnvSectionDefaults(env: Env)
    requires "OPENAI_API_KEY" !in env && "OPENAI_MODEL" !in env
    requires "OPENAI_VISION_MODEL" !in env && "LOG_LEVEL" !in env
    ensures EnvSection(env) == JObj(map["OPENAI_API_KEY" := JNull, "OPENAI_MODEL" := JStr("gpt-4o"),
                                        "OPENAI_VISION_MODEL" := JStr("gpt-4o-mini"), "LOG_LEVEL" := JStr("INFO")])
  {
  }

  /** `load_settings()`. `loaded` is what reading the file, expanding `${VAR}`
      and `yaml.safe_load` produced, or the exception one of them raised
      (a missing file raises FileNotFoundError). Item assignment of `env` on a
      document that is not a mapping raises TypeError. Every exception is
      swallowed and yields `{}`. */
  function LoadSettings(loaded: Outcome<JValue>, env: Env): (settings: map<string, JValue>)
    ensures settings != map[] <==> loaded.Ok? && loaded.value.JObj?
    ensures settings != map[] ==> "env" in settings && settings["env"] == EnvSection(env)
    ensures loaded.Ok? && loaded.value.JObj? ==>
              && settings.Keys == loaded.value.fields.Keys + {"env"}
              && forall k :: k in loaded.value.fields && k != "env" ==> settings[k] == loaded.value.fields[k]
  {
    match loaded
    case Raise(_) => map[]
    case Ok(doc) =>
      match doc
      case JObj(m) =>
        var settings := m["env" := EnvSection(env)];
        assert "env" in settings;
        settings
      case _ => map[]
  }

  /** `agents.<name>.model` is present in the settings, each level being a mapping. */
  predicate HasAgentModel(settings: map<string, JValue>, agentName: string) {
    && "agents" in settings && settings["agents"].JObj?
    && agentName in settings["agents"].fields && settings["agents"].fields[agentName].JObj?
    && "model" in settings["agents"].fields[agentName].fields
  }

  function AgentModelEntry(settings: map<string, JValue>, agentName: string): JValue
    requires HasAgentModel(settings, agentName)
  {
    settings["agents"].fields[agentName].fields["model"]
  }

  /** The model `get_agent_model` falls back to. */
  function EnvModel(env: Env): string {
    GetEnv(env, "OPENAI_MODEL", "gpt-4o")
  }

  /** `settings.get("agents", {}).get(agent_name, {}).get("model")`, which
      raises AttributeError when a level is not a mapping. */
  function AgentModelLookup(settings: map<string, JValue>, agentName: string): Outcome<JValue> {
    var agents := Lookup(settings, "agents", JObj(map[]));
    var entry :- GetOr(agents, agentName, JObj(map[]));
    GetOr(entry, "model", JNull)
  }

  /** `get_agent_model(agent_name)` on loaded settings: the agent's own model
      when it is set and truthy; otherwise, also when the lookup raised,
      `OPENAI_MODEL` from the environment or "gpt-4o". */
  function GetAgentModel(settings: map<string, JValue>, env: Env, agentName: string): (model: JValue)
    ensures HasAgentModel(settings, agentName) && Truthy(AgentModelEntry(settings, agentName)) ==>
              model == AgentModelEntry(settings, agentName)
    ensures !(HasAgentModel(settings, agentName) && Truthy(AgentModelEntry(settings, agentName))) ==>
              model == JStr(EnvModel(env))
  {
    match AgentModelLookup(settings, agentName)
    case Ok(m) => if Truthy(m) then m else JStr(EnvModel(env))
    case Raise(_) => JStr(EnvModel(env))
  }

  /** Without a configured model and without `OPENAI_MODEL`, the model is "gpt-4o". */
  lemma AgentModelDefault(settings: map<string, JValue>, env: Env, agentName: string)
    requires !HasAgentModel(settings, agentName) && "OPENAI_MODEL" !in env
    ensures GetAgentModel(settings, env, agentName) == JStr("gpt-4o")
  {
  }

  /** The result is falsy only when nothing truthy is configured and the
      environment sets `OPENAI_MODEL` to the empty string. */
  lemma AgentModelTruthy(settings: map<string, JValue>, env: Env, agentName: string)
    ensures !Truthy(GetAgentModel(settings, env, agentName)) <==>
              && !(HasAgentModel(settings, agentName) && Truthy(AgentModelEntry(settings, agentName)))
              && "OPENAI_MODEL" in env && env["OPENAI_MODEL"] == ""
  {
  }

  /** `if settings["features"].get(flag, default):` — raises KeyError when
      there is no `features` section and AttributeError when it is not a
      mapping; otherwise the truthiness of the flag, `default` when absent. */
  function FeatureFlag(settings: map<string, JValue>, flag: string, default: bool): (r: Outcome<bool>)
    ensures r.Ok? <==> "features" in settings && settings["features"].JObj?
    ensures "features" !in settings ==> r == Raise(KeyErrorMessage("features"))
    ensures r.Ok? && flag !in settings["features"].fields ==> r.value == default
    ensures r.Ok? && flag in settings["features"].fields ==> r.value == Truthy(settings["features"].fields[flag])
  {
    var features :- if "features" in settings then Ok(settings["features"]) else Raise(KeyErrorMessage("features"));
    var v :- GetOr(features, flag, JBool(default));
    Ok(Truthy(v))
  }

  /** `Path(settings["paths"]["diagrams_dir"])`. */
  function DiagramsDir(settings: map<string, JValue>): (r: Outcome<string>)
    ensures r.Ok? <==> "paths" in settings && settings["paths"].JObj?
                       && "diagrams_dir" in settings["paths"].fields
                       && settings["paths"].fields["diagrams_dir"].JStr?
    ensures r.Ok? ==> r.value == settings["paths"].fields["diagrams_dir"].s
  {
    var paths :- if "paths" in settings then Ok(settings["paths"]) else Raise(KeyErrorMessage("paths"));
    var dir :- Index(paths, "diagrams_dir");
    if dir.JStr? then Ok(dir.s)
    else Raise("expected str, bytes or os.PathLike object, not " + TypeName(dir))
  }

  /** `Path(dir) / name`, without pathlib's normalisation. */
  function JoinPath(dir: string, name: string): string {
    dir + "/" + name
  }
}
