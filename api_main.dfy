/** `create_api`: the server's settings live in the closure of the route
    handlers (model name, agent name, prompt, MCP source, memory mode and
    a kwargs dict holding temperature and max_tokens), next to `app.state`
    (temperature, max_tokens and the current agent). Each handler is a
    step on that state; the class below runs the steps in place. */
module ApiMain {
  import opened Wrappers
  import opened Http
  import opened McpModels
  import opened McpManager
  import opened Agents
  import opened MessageManager
  import opened ChatModels
  import opened RequestModels

  /** DEFAULT_TEMPERATURE and DEFAULT_MAX_TOKENS of the API module. */
  const ApiDefaultTemperature: real := 0.0
  const ApiDefaultMaxTokens: int := 2048

  const ChatFailure: string := "Failed to process user message"

  /** The closure variables and `app.state`; an absent state attribute is None. */
  datatype ServerState = ServerState(
    settings: Settings,
    temperature: Option<real>,
    maxTokens: Option<int>,
    agent: Option<CompiledAgent>)

  /** A handler's effect: the new state and its response (a success
      message, or the HTTPException it raises). */
  datatype Step = Step(next: ServerState, response: Result<string, HttpException>)

  /** What `/chat` returns: the last message of the agent's state, or the
      falsy response itself. */
  datatype ChatReply = LastMessage(message: LcMessage) | FalsyReply

  /** Right after `create_api`: no agent, no temperature, no max_tokens. */
  function Initial(s: Settings): ServerState {
    ServerState(s, None, None, None)
  }

  function Override<T>(given: Option<T>, current: T): T {
    if given.Some? then given.value else current
  }

  /** An `AgentConfig` MCP dict becomes the closure's MCP source. */
  function InlineSource(es: seq<(string, Fields)>): McpSource {
    Inline(seq(|es|, i requires 0 <= i < |es| => (es[i].0, Mapping(es[i].1))))
  }

  function KwargTemperature(k: Kwargs): real {
    if k.temperature.Some? then k.temperature.value else ApiDefaultTemperature
  }

  function KwargMaxTokens(k: Kwargs): int {
    if k.maxTokens.Some? then k.maxTokens.value else ApiDefaultMaxTokens
  }

  /** `agent_initialization` (GET /agent-initialization). */
  function InitStep(st: ServerState, lib: Library): Step {
    match CreateAgentSpec(st.settings, lib)
    case Ok(a) => Step(st.(agent := Some(a)), Ok("Agent initialized successfully"))
    case Err(_) => Step(st, Err(HttpException(500, "Failed to initialize agent")))
  }

  /** The settings after `/agent-config` has applied its overrides. */
  function ConfiguredSettings(s: Settings, cfg: AgentConfig): Settings {
    Settings(
      Override(cfg.modelName, s.modelName),
      Override(cfg.agentName, s.agentName),
      Override(cfg.agentPrompt, s.agentPrompt),
      if cfg.mcpSource.Some? then InlineSource(cfg.mcpSource.value) else s.mcpSource,
      Override(cfg.memoryMode, s.memoryMode),
      Kwargs(Some(KwargTemperature(s.kwargs)), Some(KwargMaxTokens(s.kwargs))))
  }

  /** `set_agent_config` (POST /agent-config). */
  function AgentConfigStep(st: ServerState, cfg: AgentConfig, lib: Library): Step {
    var s := ConfiguredSettings(st.settings, cfg);
    var updated := ServerState(s, s.kwargs.temperature, s.kwargs.maxTokens, st.agent);
    match CreateAgentSpec(s, lib)
    case Ok(a) => Step(updated.(agent := Some(a)), Ok("Agent configured successfully"))
    case Err(_) => Step(updated, Err(HttpException(500, "Failed to configure agent")))
  }

  /** `set_llm_config` (POST /llm-config). Its `model_name` is a local of
      the handler (there is no `nonlocal`): the new name reaches only the
      agent built here and the closure keeps the old one. */
  function LlmConfigStep(st: ServerState, cfg: LlmConfig, lib: Library): Step {
    var kept := st.settings.(kwargs := Kwargs(Some(cfg.temperature), Some(cfg.maxTokens)));
    var updated := ServerState(kept, Some(cfg.temperature), Some(cfg.maxTokens), st.agent);
    match CreateAgentSpec(kept.(modelName := cfg.modelName), lib)
    case Ok(a) => Step(updated.(agent := Some(a)), Ok("LLM configured successfully"))
    case Err(_) => Step(updated, Err(HttpException(500, "Failed to configure LLM")))
  }

  /** `user_agent_chat` (POST /chat). A missing agent, a failing `ainvoke`,
      a state without `messages` and an empty `messages` list all raise. */
  function ChatStep(st: ServerState, message: UserMessage, invoke: Invoker): Result<ChatReply, HttpException> {
    if st.agent.None? then Err(HttpException(500, ChatFailure))
    else
      match invoke(st.agent.value, message)
      case Err(_) => Err(HttpException(500, ChatFailure))
      case Ok(FalsyResponse) => Ok(FalsyReply)
      case Ok(StateDict(None)) => Err(HttpException(500, ChatFailure))
      case Ok(StateDict(Some(ms))) =>
        if ms == [] then Err(HttpException(500, ChatFailure)) else Ok(LastMessage(ms[|ms| - 1]))
  }

  /** `/agent-config` replaces a setting only when the request carries a
      value for it; kwargs and app.state then both hold temperature and
      max_tokens, taken from the prior kwargs or the defaults 0.0 / 2048. */
  lemma AgentConfigOverrides(st: ServerState, cfg: AgentConfig, lib: Library)
    ensures var n := AgentConfigStep(st, cfg, lib).next.settings;
            && (cfg.modelName.None? ==> n.modelName == st.settings.modelName)
            && (cfg.modelName.Some? ==> n.modelName == cfg.modelName.value)
            && (cfg.agentName.None? ==> n.agentName == st.settings.agentName)
            && (cfg.agentName.Some? ==> n.agentName == cfg.agentName.value)
            && (cfg.agentPrompt.None? ==> n.agentPrompt == st.settings.agentPrompt)
            && (cfg.agentPrompt.Some? ==> n.agentPrompt == cfg.agentPrompt.value)
            && (cfg.mcpSource.None? ==> n.mcpSource == st.settings.mcpSource)
            && (cfg.mcpSource.Some? ==> n.mcpSource == InlineSource(cfg.mcpSource.value))
            && (cfg.mcpSource.Some? ==> n.mcpSource.Inline? && |n.mcpSource.entries| == |cfg.mcpSource.value|)
            && (cfg.mcpSource.Some? ==>
                  forall i | 0 <= i < |cfg.mcpSource.value| ::
                    n.mcpSource.entries[i] == (cfg.mcpSource.value[i].0, Mapping(cfg.mcpSource.value[i].1)))
            && (cfg.memoryMode.None? ==> n.memoryMode == st.settings.memoryMode)
            && (cfg.memoryMode.Some? ==> n.memoryMode == cfg.memoryMode.value)
    ensures var next := AgentConfigStep(st, cfg, lib).next;
            && next.temperature == next.settings.kwargs.temperature
            && next.maxTokens == next.settings.kwargs.maxTokens
            && next.temperature == Some(if st.settings.kwargs.temperature.Some? then st.settings.kwargs.temperature.value else 0.0)
            && next.maxTokens == Some(if st.settings.kwargs.maxTokens.Some? then st.settings.kwargs.maxTokens.value else 2048)
  {
  }

  /** An `/agent-config` body that omits memory_mode turns memory off,
      because the field defaults to False rather than None. */
  lemma OmittedMemoryModeResets(st: ServerState, body: AgentConfigBody, lib: Library)
    requires body.memoryMode.Absent? && ParseAgentConfig(body).Some?
    ensures AgentConfigStep(st, ParseAgentConfig(body).value, lib).next.settings.memoryMode == false
  {
  }

  /** When building the agent fails, `/agent-config` answers 500 but keeps
      the settings it already applied, and the previous agent stays. */
  lemma AgentConfigFailureKeepsAgent(st: ServerState, cfg: AgentConfig, lib: Library)
    requires CreateAgentSpec(ConfiguredSettings(st.settings, cfg), lib).Err?
    ensures AgentConfigStep(st, cfg, lib).response == Err(HttpException(500, "Failed to configure agent"))
    ensures AgentConfigStep(st, cfg, lib).next.agent == st.agent
    ensures AgentConfigStep(st, cfg, lib).next.settings == ConfiguredSettings(st.settings, cfg)
  {
  }

  /** `/llm-config` builds its agent with the requested model, but a later
      `/agent-initialization` builds one with the closure's old name. */
  lemma LlmConfigNameNotKept(st: ServerState, cfg: LlmConfig, lib: Library)
    ensures LlmConfigStep(st, cfg, lib).next.settings.modelName == st.settings.modelName
    ensures LlmConfigStep(st, cfg, lib).response.Ok? ==>
              LlmConfigStep(st, cfg, lib).next.agent.value.model.modelName == cfg.modelName
    ensures var after := LlmConfigStep(st, cfg, lib).next;
            InitStep(after, lib).response.Ok? ==> InitStep(after, lib).next.agent.value.model.modelName == st.settings.modelName
  {
    var kept := st.settings.(kwargs := Kwargs(Some(cfg.temperature), Some(cfg.maxTokens)));
    if CreateAgentSpec(kept.(modelName := cfg.modelName), lib).Ok? {
      BuiltAgentShape(kept.(modelName := cfg.modelName), lib);
      ModelDefaults(kept.(modelName := cfg.modelName));
    }
    if CreateAgentSpec(kept, lib).Ok? {
      BuiltAgentShape(kept, lib);
      ModelDefaults(kept);
    }
  }

  /** `/llm-config` always writes temperature and max_tokens into kwargs and
      app.state: LlmConfig has no None, so an omitted member writes its
      default (0.0 / 2048) over the current value. */
  lemma LlmConfigWritesBoth(st: ServerState, body: LlmConfigBody, lib: Library)
    requires ParseLlmConfig(body).Some?
    ensures var next := LlmConfigStep(st, ParseLlmConfig(body).value, lib).next;
            && next.temperature == next.settings.kwargs.temperature == Some(ParseLlmConfig(body).value.temperature)
            && next.maxTokens == next.settings.kwargs.maxTokens == Some(ParseLlmConfig(body).value.maxTokens)
            && (body.temperature.Absent? ==> next.temperature == Some(0.0))
            && (body.maxTokens.Absent? ==> next.maxTokens == Some(2048))
  {
  }

  /** `/chat` fails, always with status 500, when there is no agent; it
      returns the last message of a truthy response and a falsy response
      as it is. */
  lemma ChatOutcomes(st: ServerState, message: UserMessage, invoke: Invoker)
    ensures ChatStep(st, message, invoke).Err? ==> ChatStep(st, message, invoke).error.status == 500
    ensures st.agent.None? ==> ChatStep(st, message, invoke).Err?
    ensures st.agent.Some? && invoke(st.agent.value, message) == Ok(FalsyResponse) ==>
              ChatStep(st, message, invoke) == Ok(FalsyReply)
    ensures forall ms :: st.agent.Some? && invoke(st.agent.value, message) == Ok(StateDict(Some(ms))) && ms != [] ==>
              ChatStep(st, message, invoke) == Ok(LastMessage(ms[|ms| - 1]))
  {
  }

  class ApiServer {
    // closure variables of create_api
    var modelName: string
    var agentName: string
    var agentPrompt: string
    var mcpSource: McpSource
    var memoryMode: bool
    var kwargs: Kwargs
    // app.state
    var temperature: Option<real>
    var maxTokens: Option<int>
    var agent: Option<CompiledAgent>

    function State(): ServerState
      reads this
    {
      ServerState(Settings(modelName, agentName, agentPrompt, mcpSource, memoryMode, kwargs), temperature, maxTokens, agent)
    }

    /** `create_api`. */
    constructor (s: Settings)
      ensures State() == Initial(s)
    {
      modelName, agentName, agentPrompt := s.modelName, s.agentName, s.agentPrompt;
      mcpSource, memoryMode, kwargs := s.mcpSource, s.memoryMode, s.kwargs;
      temperature, maxTokens, agent := None, None, None;
    }

    method AgentInitialization(lib: Library) returns (r: Result<string, HttpException>)
      modifies this`agent
      ensures Step(State(), r) == InitStep(old(State()), lib)
    {
      var built := CreateAgent(Settings(modelName, agentName, agentPrompt, mcpSource, memoryMode, kwargs), lib);
      if built.Err? {
        return Err(HttpException(500, "Failed to initialize agent"));
      }
      agent := Some(built.value);
      return Ok("Agent initialized successfully");
    }

    method SetAgentConfig(cfg: AgentConfig, lib: Library) returns (r: Result<string, HttpException>)
      modifies this
      ensures Step(State(), r) == AgentConfigStep(old(State()), cfg, lib)
    {
      ghost var st0 := State();
      ghost var s := ConfiguredSettings(st0.settings, cfg);
      // each closure variable is rebound only when the request carries a value
      modelName := Override(cfg.modelName, modelName);
      agentName := Override(cfg.agentName, agentName);
      agentPrompt := Override(cfg.agentPrompt, agentPrompt);
      if cfg.mcpSource.Some? {
        mcpSource := InlineSource(cfg.mcpSource.value);
      }
      memoryMode := Override(cfg.memoryMode, memoryMode);
      temperature := Some(if kwargs.temperature.Some? then kwargs.temperature.value else ApiDefaultTemperature);
      maxTokens := Some(if kwargs.maxTokens.Some? then kwargs.maxTokens.value else ApiDefaultMaxTokens);
      kwargs := Kwargs(temperature, maxTokens);
      ghost var updated := ServerState(s, s.kwargs.temperature, s.kwargs.maxTokens, st0.agent);
      assert State() == updated;
      var built := CreateAgent(Settings(modelName, agentName, agentPrompt, mcpSource, memoryMode, kwargs), lib);
      if built.Err? {
        assert AgentConfigStep(st0, cfg, lib) == Step(updated, Err(HttpException(500, "Failed to configure agent")));
        return Err(HttpException(500, "Failed to configure agent"));
      }
      agent := Some(built.value);
      assert AgentConfigStep(st0, cfg, lib) == Step(updated.(agent := Some(built.value)), Ok("Agent configured successfully"));
      return Ok("Agent configured successfully");
    }

    /** The handler never rebinds the closure's model name. */
    method SetLlmConfig(cfg: LlmConfig, lib: Library) returns (r: Result<string, HttpException>)
      modifies this`kwargs, this`temperature, this`maxTokens, this`agent
      ensures Step(State(), r) == LlmConfigStep(old(State()), cfg, lib)
    {
      var localModelName := cfg.modelName;
      kwargs := kwargs.(temperature := Some(cfg.temperature));
      temperature := Some(cfg.temperature);
      kwargs := kwargs.(maxTokens := Some(cfg.maxTokens));
      maxTokens := Some(cfg.maxTokens);
      var built := CreateAgent(Settings(localModelName, agentName, agentPrompt, mcpSource, memoryMode, kwargs), lib);
      if built.Err? {
        return Err(HttpException(500, "Failed to configure LLM"));
      }
      agent := Some(built.value);
      return Ok("LLM configured successfully");
    }

    method UserAgentChat(message: UserMessage, invoke: Invoker) returns (r: Result<ChatReply, HttpException>)
      ensures r == ChatStep(State(), message, invoke)
      ensures r.Err? ==> r.error == HttpException(500, ChatFailure)
    {
      if agent.None? {
        return Err(HttpException(500, ChatFailure));
      }
      var response := invoke(agent.value, message);
      if response.Err? {
        return Err(HttpException(500, ChatFailure));
      }
      match response.value
      case FalsyResponse =>
        return Ok(FalsyReply);
      case StateDict(messages) =>
        if messages.None? || messages.value == [] {
          return Err(HttpException(500, ChatFailure));
        }
        return Ok(LastMessage(messages.value[|messages.value| - 1]));
    }
  }
}
