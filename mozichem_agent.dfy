/** `MoziChemAgent` and `create_agent`: build a chat model, split the
    normalised MCP map by transport, decide whether an aggregating MCP
    client is built, and assemble the tool list and checkpointer of the
    ReAct agent. Third-party calls are fields of `Library`; the handles
    they return are values that record the arguments they were given. */
module Agents {
  import opened Wrappers
  import opened McpModels
  import opened McpManager

  const DefaultTemperature: real := 0.0
  const DefaultMaxTokens: int := 2048

  /** The keyword arguments the agent reads; any other key is ignored. */
  datatype Kwargs = Kwargs(temperature: Option<real>, maxTokens: Option<int>)

  /** The constructor's arguments. */
  datatype Settings = Settings(
    modelName: string,
    agentName: string,
    agentPrompt: string,
    mcpSource: McpSource,
    memoryMode: bool,
    kwargs: Kwargs)

  /** The handle `init_chat_model(model_name, temperature=…, max_tokens=…)` returns. */
  datatype ChatModel = ChatModel(modelName: string, temperature: real, maxTokens: int)

  datatype Tool = Multiply | Add | ServerTool(server: string, name: string)

  /** A `MultiServerMCPClient` over the given server map. */
  datatype McpClient = McpClient(servers: map<string, McpRecord>)

  /** The agent `create_react_agent` returns. */
  datatype CompiledAgent = CompiledAgent(
    model: ChatModel,
    tools: seq<Tool>,
    prompt: string,
    checkpointed: bool)

  /** The stdio and streamable-HTTP maps `adapt_mcp` produces. */
  datatype Transports = Transports(
    stdio: map<string, StdioMcp>,
    http: map<string, StreamableHttpMcp>)

  /** The third-party collaborators, each of which may raise. */
  datatype Library = Library(
    loadYaml: Loader,                                 // load_yaml_file
    chatModelFails: ChatModel -> bool,                // init_chat_model raises
    clientFails: map<string, McpRecord> -> bool,      // MultiServerMCPClient(feed) raises
    getTools: McpClient -> Option<seq<Tool>>,         // client.get_tools(); None when it raises
    reactAgentFails: CompiledAgent -> bool)           // create_react_agent raises

  /** Which stage raised; each surfaces as a RuntimeError. */
  datatype AgentError = LlmFailed | AdaptFailed(cause: ConfigError) | ClientFailed | BuildFailed

  /** The built-in tools `multiply` and `add` on Python integers; tools of
      MCP servers run remotely and have no value here. */
  function Invoke(t: Tool, a: int, b: int): (r: Option<int>)
    ensures t == Multiply ==> r == Some(a * b)
    ensures t == Add ==> r == Some(a + b)
    ensures t.ServerTool? ==> r == None
  {
    match t
    case Multiply => Some(a * b)
    case Add => Some(a + b)
    case ServerTool(_, _) => None
  }

  function TemperatureOf(k: Kwargs): real {
    match k.temperature
    case Some(t) => t
    case None => DefaultTemperature
  }

  function MaxTokensOf(k: Kwargs): int {
    match k.maxTokens
    case Some(n) => n
    case None => DefaultMaxTokens
  }

  /** The chat model `init_llm` asks for. */
  function ModelFor(s: Settings): ChatModel {
    ChatModel(s.modelName, TemperatureOf(s.kwargs), MaxTokensOf(s.kwargs))
  }

  /** Absent keyword arguments take 0.0 and 2048; present ones are kept. */
  lemma ModelDefaults(s: Settings)
    ensures s.kwargs.temperature.None? ==> ModelFor(s).temperature == 0.0
    ensures s.kwargs.maxTokens.None? ==> ModelFor(s).maxTokens == 2048
    ensures s.kwargs.temperature.Some? ==> ModelFor(s).temperature == s.kwargs.temperature.value
    ensures s.kwargs.maxTokens.Some? ==> ModelFor(s).maxTokens == s.kwargs.maxTokens.value
    ensures ModelFor(s).modelName == s.modelName
  {
  }

  /** The stdio comprehension of `adapt_mcp`: stdio records tagged "stdio". */
  function StdioPart(m: map<string, McpRecord>): (r: map<string, StdioMcp>)
    ensures forall n :: n in r <==> n in m && m[n].Stdio? && m[n].stdio.transport == StdioTag
    ensures forall n :: n in r ==> m[n] == Stdio(r[n])
  {
    map n | n in m && m[n].Stdio? && m[n].stdio.transport == StdioTag :: m[n].stdio
  }

  /** The HTTP comprehension of `adapt_mcp`: HTTP records tagged "streamable_http". */
  function HttpPart(m: map<string, McpRecord>): (r: map<string, StreamableHttpMcp>)
    ensures forall n :: n in r <==> n in m && m[n].Http? && m[n].http.transport == StreamableHttpTag
    ensures forall n :: n in r ==> m[n] == Http(r[n])
  {
    map n | n in m && m[n].Http? && m[n].http.transport == StreamableHttpTag :: m[n].http
  }

  /** `{**stdio, **http}`: on a shared name the HTTP record wins. */
  function Merge(t: Transports): (r: map<string, McpRecord>)
    ensures r.Keys == t.stdio.Keys + t.http.Keys
    ensures forall n :: n in t.http ==> r[n] == Http(t.http[n])
    ensures forall n :: n in t.stdio && n !in t.http ==> r[n] == Stdio(t.stdio[n])
  {
    map n | n in t.stdio.Keys + t.http.Keys :: if n in t.http then Http(t.http[n]) else Stdio(t.stdio[n])
  }

  /** Splitting a map of tagged records by transport loses nothing: the
      parts are disjoint, cover every name, and merge back to the map. */
  lemma PartitionRoundTrip(m: map<string, McpRecord>)
    requires forall n :: n in m ==> Tagged(m[n])
    ensures StdioPart(m).Keys !! HttpPart(m).Keys
    ensures StdioPart(m).Keys + HttpPart(m).Keys == m.Keys
    ensures Merge(Transports(StdioPart(m), HttpPart(m))) == m
  {
    var t := Transports(StdioPart(m), HttpPart(m));
    forall n | n in m ensures n in t.stdio || n in t.http {
      assert Tagged(m[n]);
    }
  }

  /** `adapt_mcp` on a fresh agent: a falsy source leaves both maps empty;
      otherwise `config_mcp` runs and its result is split by transport. */
  function AdaptSpec(src: McpSource, load: Loader): Result<Transports, ConfigError> {
    if !Truthy(src) then Ok(Transports(map[], map[]))
    else
      match ConfigureSource(src, load)
      case Err(e) => Err(e)
      case Ok(m) => Ok(Transports(StdioPart(m), HttpPart(m)))
  }

  /** After `adapt_mcp` every configured name is in exactly one of the two
      maps, with its record unchanged. */
  lemma AdaptPartitions(src: McpSource, load: Loader)
    requires AdaptSpec(src, load).Ok?
    ensures AdaptSpec(src, load).value.stdio.Keys !! AdaptSpec(src, load).value.http.Keys
    ensures !Truthy(src) ==> AdaptSpec(src, load).value == Transports(map[], map[])
    ensures Merge(AdaptSpec(src, load).value) == ConfigureSource(src, load).value
  {
    var m := ConfigureSource(src, load).value;
    ConfigureSourceOutcome(src, load);
    PartitionRoundTrip(m);
  }

  /** `create_client` AS WRITTEN: the feed is built only when both maps are
      empty, so no configured server ever reaches a client. */
  function ClientFeedAsWritten(t: Transports): Option<map<string, McpRecord>> {
    if t.stdio == map[] && t.http == map[] then Some(Merge(t)) else None
  }

  /** As written, a client is built exactly when both maps are empty, and
      its feed is then empty. */
  lemma ClientGateAsWritten(t: Transports)
    ensures ClientFeedAsWritten(t).Some? <==> t.stdio == map[] && t.http == map[]
    ensures ClientFeedAsWritten(t).Some? ==> ClientFeedAsWritten(t).value == map[]
  {
    if t.stdio == map[] && t.http == map[] {
      assert Merge(t).Keys == {};
    }
  }

  /** The input that shows it: one stdio server, and the written gate builds
      no client while the corrected gate builds one that carries it. */
  lemma ClientGateCounterexample()
    ensures ClientFeedAsWritten(Transports(map["chem" := StdioMcp(StdioTag, Some("uvx"), [], Some(map[]))], map[])) == None
    ensures ClientFeed(Transports(map["chem" := StdioMcp(StdioTag, Some("uvx"), [], Some(map[]))], map[]))
            == Some(map["chem" := Stdio(StdioMcp(StdioTag, Some("uvx"), [], Some(map[])))])
  {
    var t := Transports(map["chem" := StdioMcp(StdioTag, Some("uvx"), [], Some(map[]))], map[]);
    assert "chem" in t.stdio;
    assert Merge(t) == map["chem" := Stdio(StdioMcp(StdioTag, Some("uvx"), [], Some(map[])))];
  }

  /** `create_client` as evidently intended: a client is built when at
      least one server is configured, over the merge of both maps. */
  function ClientFeed(t: Transports): (r: Option<map<string, McpRecord>>)
    ensures r.Some? <==> t.stdio != map[] || t.http != map[]
    ensures r.Some? ==> r.value.Keys == t.stdio.Keys + t.http.Keys
  {
    if t.stdio != map[] || t.http != map[] then Some(Merge(t)) else None
  }

  /** The corrected gate over `adapt_mcp`'s output: a client is built iff
      `config_mcp` returned some server, and it carries exactly that map. */
  lemma ClientCarriesEveryServer(m: map<string, McpRecord>)
    requires forall n :: n in m ==> Tagged(m[n])
    ensures ClientFeed(Transports(StdioPart(m), HttpPart(m))).Some? <==> m != map[]
    ensures m != map[] ==> ClientFeed(Transports(StdioPart(m), HttpPart(m))) == Some(m)
  {
    PartitionRoundTrip(m);
    if m != map[] {
      var n :| n in m;
      assert n in StdioPart(m) || n in HttpPart(m);
    }
  }

  /** `[*client_tools, multiply, add]`, or `[multiply, add]` without a client. */
  function ToolList(clientTools: Option<seq<Tool>>): (r: seq<Tool>)
    ensures |r| >= 2 && r[|r| - 2..] == [Multiply, Add]
    ensures clientTools.None? ==> r == [Multiply, Add]
    ensures clientTools.Some? ==> r[..|r| - 2] == clientTools.value
  {
    match clientTools
    case None => [Multiply, Add]
    case Some(ts) => ts + [Multiply, Add]
  }

  /** `build_agent` as a function of the agent's state. */
  function BuildSpec(llm: Option<ChatModel>, client: Option<McpClient>, prompt: string,
                     memoryMode: bool, lib: Library): Result<CompiledAgent, AgentError>
  {
    if llm.None? then Err(BuildFailed)
    else if client.Some? && lib.getTools(client.value).None? then Err(BuildFailed)
    else
      var tools := ToolList(if client.Some? then lib.getTools(client.value) else None);
      var agent := CompiledAgent(llm.value, tools, prompt, memoryMode);
      if lib.reactAgentFails(agent) then Err(BuildFailed) else Ok(agent)
  }

  /** What construction leaves in the agent. */
  datatype Assembled = Assembled(llm: ChatModel, transports: Transports, client: Option<McpClient>)

  /** `__init__`: init_llm, then adapt_mcp, then create_client; the first
      stage that raises ends construction. */
  function Assemble(s: Settings, lib: Library): Result<Assembled, AgentError> {
    var model := ModelFor(s);
    if lib.chatModelFails(model) then Err(LlmFailed)
    else
      match AdaptSpec(s.mcpSource, lib.loadYaml)
      case Err(e) => Err(AdaptFailed(e))
      case Ok(t) =>
        match ClientFeed(t)
        case None => Ok(Assembled(model, t, None))
        case Some(feed) =>
          if lib.clientFails(feed) then Err(ClientFailed)
          else Ok(Assembled(model, t, Some(McpClient(feed))))
  }

  /** `create_agent`: construct, then build. */
  function CreateAgentSpec(s: Settings, lib: Library): Result<CompiledAgent, AgentError> {
    match Assemble(s, lib)
    case Err(e) => Err(e)
    case Ok(a) => BuildSpec(Some(a.llm), a.client, s.agentPrompt, s.memoryMode, lib)
  }

  /** Stages run in order: a failing LLM stops everything before the MCP
      source is even loaded, and an MCP failure stops the client stage. */
  lemma StagesInOrder(s: Settings, lib: Library)
    ensures lib.chatModelFails(ModelFor(s)) ==> CreateAgentSpec(s, lib) == Err(LlmFailed)
    ensures !lib.chatModelFails(ModelFor(s)) && AdaptSpec(s.mcpSource, lib.loadYaml).Err?
            ==> CreateAgentSpec(s, lib) == Err(AdaptFailed(AdaptSpec(s.mcpSource, lib.loadYaml).error))
  {
  }

  /** A built agent: the requested model, the prompt, a checkpointer iff
      memory mode, and the tools of the client followed by multiply and add;
      with a falsy MCP source the tools are exactly [multiply, add]. */
  lemma BuiltAgentShape(s: Settings, lib: Library)
    requires CreateAgentSpec(s, lib).Ok?
    ensures CreateAgentSpec(s, lib).value.model == ModelFor(s)
    ensures CreateAgentSpec(s, lib).value.prompt == s.agentPrompt
    ensures CreateAgentSpec(s, lib).value.checkpointed == s.memoryMode
    ensures Assemble(s, lib).value.client.None? ==> CreateAgentSpec(s, lib).value.tools == [Multiply, Add]
    ensures Assemble(s, lib).value.client.Some? ==>
              CreateAgentSpec(s, lib).value.tools == lib.getTools(Assemble(s, lib).value.client.value).value + [Multiply, Add]
    ensures !Truthy(s.mcpSource) ==> CreateAgentSpec(s, lib).value.tools == [Multiply, Add]
  {
  }

  /** The client, when there is one, carries exactly what `config_mcp`
      returned; there is one iff that map is non-empty. */
  lemma AssembledClient(s: Settings, lib: Library)
    requires Assemble(s, lib).Ok? && Truthy(s.mcpSource)
    ensures ConfigureSource(s.mcpSource, lib.loadYaml).Ok?
    ensures Assemble(s, lib).value.client.Some? <==> ConfigureSource(s.mcpSource, lib.loadYaml).value != map[]
    ensures Assemble(s, lib).value.client.Some? ==>
              Assemble(s, lib).value.client.value.servers == ConfigureSource(s.mcpSource, lib.loadYaml).value
  {
    var m := ConfigureSource(s.mcpSource, lib.loadYaml).value;
    ConfigureSourceOutcome(s.mcpSource, lib.loadYaml);
    ClientCarriesEveryServer(m);
  }

  class MoziChemAgent {
    var modelName: string
    var agentName: string
    var agentPrompt: string
    var mcpSource: McpSource
    var memoryMode: bool
    var temperature: real
    var maxTokens: int
    var llm: Option<ChatModel>
    var stdioServers: map<string, StdioMcp>
    var httpServers: map<string, StreamableHttpMcp>
    var client: Option<McpClient>

    /** The attribute assignments that open `__init__`, with the class-level
        defaults for the transport maps and the client. */
    constructor Attributes(s: Settings)
      ensures modelName == s.modelName && agentName == s.agentName && agentPrompt == s.agentPrompt
      ensures mcpSource == s.mcpSource && memoryMode == s.memoryMode
      ensures temperature == TemperatureOf(s.kwargs) && maxTokens == MaxTokensOf(s.kwargs)
      ensures llm == None && stdioServers == map[] && httpServers == map[] && client == None
    {
      modelName := s.modelName;
      agentName := s.agentName;
      agentPrompt := s.agentPrompt;
      mcpSource := s.mcpSource;
      memoryMode := s.memoryMode;
      temperature := match s.kwargs.temperature case Some(t) => t case None => DefaultTemperature;
      maxTokens := match s.kwargs.maxTokens case Some(n) => n case None => DefaultMaxTokens;
      llm := None;
      stdioServers := map[];
      httpServers := map[];
      client := None;
    }

    /** `init_llm`. */
    method InitLlm(lib: Library) returns (o: Outcome<AgentError>)
      modifies this`llm
      ensures o.Pass? <==> !lib.chatModelFails(ChatModel(modelName, temperature, maxTokens))
      ensures o.Fail? ==> o.error == LlmFailed && llm == old(llm)
      ensures o.Pass? ==> llm == Some(ChatModel(modelName, temperature, maxTokens))
    {
      var model := ChatModel(modelName, temperature, maxTokens);
      if lib.chatModelFails(model) {
        return Fail(LlmFailed);
      }
      llm := Some(model);
      return Pass;
    }

    /** `adapt_mcp`: the maps change only when the source is truthy and
        `config_mcp` succeeds. */
    method AdaptMcp(lib: Library) returns (o: Outcome<AgentError>)
      modifies this`stdioServers, this`httpServers
      ensures !Truthy(mcpSource) ==> o.Pass? && stdioServers == old(stdioServers) && httpServers == old(httpServers)
      ensures Truthy(mcpSource) ==>
                match ConfigureSource(mcpSource, lib.loadYaml)
                case Err(e) => o == Fail(AdaptFailed(e)) && stdioServers == old(stdioServers) && httpServers == old(httpServers)
                case Ok(m) => o.Pass? && stdioServers == StdioPart(m) && httpServers == HttpPart(m)
    {
      if Truthy(mcpSource) {
        var manager := new Manager(mcpSource);
        var configured := manager.ConfigMcp(lib.loadYaml);
        if configured.Err? {
          return Fail(AdaptFailed(configured.error));
        }
        stdioServers := StdioPart(configured.value);
        httpServers := HttpPart(configured.value);
      }
      return Pass;
    }

    /** `create_client`, with the corrected gate. */
    method CreateClient(lib: Library) returns (o: Outcome<AgentError>)
      modifies this`client
      ensures var feed := ClientFeed(Transports(stdioServers, httpServers));
              && (feed.None? ==> o.Pass? && client == None)
              && (feed.Some? && lib.clientFails(feed.value) ==> o == Fail(ClientFailed) && client == old(client))
              && (feed.Some? && !lib.clientFails(feed.value) ==> o.Pass? && client == Some(McpClient(feed.value)))
    {
      if stdioServers != map[] || httpServers != map[] {
        var feed := Merge(Transports(stdioServers, httpServers));
        if lib.clientFails(feed) {
          return Fail(ClientFailed);
        }
        client := Some(McpClient(feed));
      } else {
        client := None;
      }
      return Pass;
    }

    /** `MoziChemAgent(...)`: the constructor with its three stages. */
    static method Create(s: Settings, lib: Library) returns (r: Result<MoziChemAgent, AgentError>)
      ensures Assemble(s, lib).Err? <==> r.Err?
      ensures r.Err? ==> r.error == Assemble(s, lib).error
      ensures r.Ok? ==> fresh(r.value)
      ensures r.Ok? ==> var a := Assemble(s, lib).value;
                        && r.value.llm == Some(a.llm)
                        && Transports(r.value.stdioServers, r.value.httpServers) == a.transports
                        && r.value.client == a.client
                        && r.value.agentPrompt == s.agentPrompt
                        && r.value.memoryMode == s.memoryMode
    {
      var agent := new MoziChemAgent.Attributes(s);
      var o := agent.InitLlm(lib);
      if o.Fail? {
        return Err(o.error);
      }
      o := agent.AdaptMcp(lib);
      if o.Fail? {
        return Err(o.error);
      }
      o := agent.CreateClient(lib);
      if o.Fail? {
        return Err(o.error);
      }
      return Ok(agent);
    }

    /** `build_agent`. */
    method BuildAgent(lib: Library) returns (r: Result<CompiledAgent, AgentError>)
      ensures r == BuildSpec(llm, client, agentPrompt, memoryMode, lib)
      ensures r.Ok? ==> Some(r.value.model) == llm && r.value.checkpointed == memoryMode
      ensures r.Ok? && client.None? ==> r.value.tools == [Multiply, Add]
    {
      if llm.None? {
        return Err(BuildFailed);
      }
      var tools: seq<Tool>;
      if client.Some? {
        var clientTools := lib.getTools(client.value);
        if clientTools.None? {
          return Err(BuildFailed);
        }
        tools := clientTools.value + [Multiply, Add];
      } else {
        tools := [Multiply, Add];
      }
      var agent := CompiledAgent(llm.value, tools, agentPrompt, memoryMode);
      if lib.reactAgentFails(agent) {
        return Err(BuildFailed);
      }
      return Ok(agent);
    }
  }

  /** `create_agent` (agents/main.py): construct the agent, then build it. */
  method CreateAgent(s: Settings, lib: Library) returns (r: Result<CompiledAgent, AgentError>)
    ensures r == CreateAgentSpec(s, lib)
  {
    var built := MoziChemAgent.Create(s, lib);
    if built.Err? {
      return Err(built.error);
    }
    r := built.value.BuildAgent(lib);
  }
}
