# MoziChem AI core, modelled in Dafny

MoziChem AI wraps a LangChain/LangGraph ReAct agent behind a small FastAPI
server. The agent chats through a chosen LLM and can call the tools of MCP
(Model Context Protocol) servers. This project models the core of that server:

- MCP configuration. `MCPManager.config_mcp` validates a dict of MCP server
  entries, or the YAML file one is loaded from, into typed `stdioMCP` and
  `streamableHttpMCP` records. The first entry that is rejected fails the
  whole call.
- Agent assembly. `MoziChemAgent` builds the chat model (temperature and
  max_tokens default to 0.0 and 2048). It splits the MCP map by transport,
  decides whether to build a `MultiServerMCPClient`, and builds the ReAct
  agent with the client's tools followed by `multiply` and `add`, plus a
  checkpointer when memory mode is on. `create_agent` constructs the agent
  and then builds it.
- The HTTP handlers of `create_api`:
  - `/agent-initialization`;
  - `/agent-config`, which overrides only the settings given in the request;
  - `/llm-config`;
  - `/chat`, which returns the last message of the agent's state.
  Each handler is a function from the old server state to a new state and
  a response. The class `ApiServer` runs each one in place.
- The smaller services:
  - `MoziChemAIAPI`, which caches its agent;
  - the `/llm/ping` check, where every error comes back as HTTP 500;
  - `initialize_model`, which guards the provider;
  - `agent_message_analyzer`, which turns a LangChain message into an
    `AgentMessage`;
  - `/config/exit`, which acts as a one-way switch.

The program's collaborators are taken as parameters, each of which may fail:
the YAML loader, `init_chat_model`, `MultiServerMCPClient`, `get_tools`,
`create_react_agent`, the LLM ping and `ainvoke`. Each one returns a value
that records the arguments it was given, so the proofs can state what
reaches each of them.

Modules follow the source files:

| module | file |
|---|---|
| `McpModels` | `mcp_models.dfy` |
| `McpManager` | `mcp_manager.dfy` |
| `Agents` | `mozichem_agent.dfy` (also covers `agents/main.py`) |
| `MessageManager` | `message_manager.dfy` |
| `RequestModels` | `request_models.dfy` |
| `ChatModels` | `chat_models.dfy` |
| `AiApi` | `ai_api.dfy` |
| `ApiMain` | `api_main.dfy` |
| `LlmCheck` | `llm_check.dfy` |
| `LlmInit` | `llm_init.dfy` |
| `ConfigApi` | `config_api.dfy` |

Shared helpers are in `wrappers.dfy` and `http.dfy`.

Python behaviour that the model keeps:
- truthiness: an empty dict or empty string is false, a `Path` is always true;
- dict insertion order of the MCP entries, held as a sequence of pairs;
- a dict update where a later duplicate key wins;
- pydantic's three cases for a JSON member: absent, `null`, or a value;
- the scoping of `model_name` in `/llm-config`. It has no `nonlocal`, so
  the new name reaches only the agent built in that call.

## Model

| member | source | states |
|---|---|---|
| McpModels.ValidateStdio | mozichem_ai/models/mcp.py:6-19 | a stdio record is built exactly when every declared field has an accepted type; transport defaults to "stdio", command to None, args to [], env to {} and an explicit null env stays None; given values are kept |
| McpModels.ValidateHttp | mozichem_ai/models/mcp.py:22-34 | an HTTP record is built exactly when url is a string and the other fields are well typed; transport defaults to "streamable_http", env to {} |
| McpModels.StdioDefaults | mozichem_ai/models/mcp.py:10-19 | an empty entry yields the all-defaults stdio record |
| McpModels.HttpUrlRequired | mozichem_ai/models/mcp.py:30-34 | without url no HTTP record exists; with url alone every other field takes its default |
| McpModels.TransportIsFree | mozichem_ai/models/mcp.py:10 | transport is an unconstrained string in both records: any tag is accepted and kept |
| McpModels.UnknownKeysIgnored | mozichem_ai/models/mcp.py:6-34 | a key neither record declares does not change validation |
| McpManager.BuildRecord | mozichem_ai/agents/mcp_manager.py:87-94 | a non-mapping entry and an entry without transport are rejected; a "stdio" entry gives `stdioMCP(**entry)` when that validates and fails otherwise; a "streamable_http" entry gives `streamableHttpMCP(**entry)` likewise; any other tag is rejected naming that tag; every built record carries its tag |
| McpManager.Manager.constructor | mozichem_ai/agents/mcp_manager.py:22-32 | the manager keeps the source it is given |
| McpManager.Manager.ConfigMcp | mozichem_ai/agents/mcp_manager.py:59-98 | the loop's result equals the prefix-recursive configuration of the resolved source; a falsy source returns {} without loading; a loaded path replaces the manager's `mcp` with the file's contents |
| McpManager.ConfigureErrorSticks | mozichem_ai/agents/mcp_manager.py:84-98 | once an entry is rejected the whole call fails with that error and later entries do not matter |
| McpManager.ConfigureKeys | mozichem_ai/agents/mcp_manager.py:84-95 | on success the result's keys are exactly the names of the dict's entries |
| McpManager.ConfigureTagged | mozichem_ai/agents/mcp_manager.py:87-94 | on success every record carries the transport tag it was dispatched on |
| McpManager.ConfigureOkIff | mozichem_ai/agents/mcp_manager.py:84-98 | all or nothing: the call succeeds iff every entry builds |
| McpManager.ConfigureFirstError | mozichem_ai/agents/mcp_manager.py:84-98 | a failure reports the error of the first entry, in insertion order, that does not build |
| McpManager.ConfigureRecords | mozichem_ai/agents/mcp_manager.py:87-95 | on success each name maps to the record built from its own entry |
| McpManager.ConfigureSourceOutcome | mozichem_ai/agents/mcp_manager.py:70-98 | falsy source gives {}; a path whose file cannot be loaded fails with the loader's reason; a success has the loaded dict's names as keys, each record tagged |
| Agents.Invoke | mozichem_ai/agents/mozichem_agent.py:26-35 | the multiply tool returns a*b and the add tool a+b |
| Agents.ModelDefaults | mozichem_ai/agents/mozichem_agent.py:99-103 | the chat model gets the requested name, and temperature and max_tokens from kwargs or 0.0 and 2048 |
| Agents.StdioPart | mozichem_ai/agents/mozichem_agent.py:156-165 | the stdio map holds exactly the stdio records tagged "stdio", unchanged |
| Agents.HttpPart | mozichem_ai/agents/mozichem_agent.py:166-175 | the HTTP map holds exactly the HTTP records tagged "streamable_http", unchanged |
| Agents.Merge | mozichem_ai/agents/mozichem_agent.py:192-195 | the merged feed has the union of both key sets; an HTTP entry wins on a shared name |
| Agents.PartitionRoundTrip | mozichem_ai/agents/mozichem_agent.py:156-175 | splitting tagged records by transport gives disjoint parts that cover every name and merge back to the original map |
| Agents.AdaptPartitions | mozichem_ai/agents/mozichem_agent.py:142-178 | after adapt_mcp every configured server is in exactly one transport map, unchanged; a falsy source leaves both empty |
| Agents.ClientGateAsWritten | mozichem_ai/agents/mozichem_agent.py:187-204 | as written, a client is built iff both maps are empty, and then its feed is empty |
| Agents.ClientGateCounterexample | mozichem_ai/agents/mozichem_agent.py:187-204 | one stdio server: the written gate builds no client, the corrected one builds a client carrying it |
| Agents.ClientFeed | mozichem_ai/agents/mozichem_agent.py:187-204 | corrected gate: a client feed exists iff some server is configured, and it holds every server of both maps |
| Agents.ClientCarriesEveryServer | mozichem_ai/agents/mozichem_agent.py:180-207 | over adapt_mcp's output the client exists iff config_mcp returned a server, and carries exactly that map |
| Agents.ToolList | mozichem_ai/agents/mozichem_agent.py:216-224 | the tools are the client's tools, in order, followed by multiply and add; without a client just multiply and add |
| Agents.StagesInOrder | mozichem_ai/agents/mozichem_agent.py:106-124 | a failing chat model stops construction before the MCP source is read; an MCP failure is reported before any client is built |
| Agents.BuiltAgentShape | mozichem_ai/agents/mozichem_agent.py:209-244 | a built agent has the requested model and prompt, a checkpointer iff memory mode, and the client's tools then multiply and add |
| Agents.AssembledClient | mozichem_ai/agents/mozichem_agent.py:106-124 | after construction there is a client iff config_mcp returned some server, and it carries that whole map |
| Agents.MoziChemAgent.Attributes | mozichem_ai/agents/mozichem_agent.py:58-103 | construction stores the settings, temperature and max_tokens from kwargs or their defaults, and starts with no model, empty maps and no client |
| Agents.MoziChemAgent.InitLlm | mozichem_ai/agents/mozichem_agent.py:126-140 | the model is stored iff init_chat_model accepts (name, temperature, max_tokens); otherwise construction fails |
| Agents.MoziChemAgent.AdaptMcp | mozichem_ai/agents/mozichem_agent.py:142-178 | a truthy source is configured through a new manager and split by transport; a falsy one leaves the maps alone; a configuration error fails |
| Agents.MoziChemAgent.CreateClient | mozichem_ai/agents/mozichem_agent.py:180-207 | with the corrected gate: a client over the merged maps when any server exists, none otherwise |
| Agents.MoziChemAgent.Create | mozichem_ai/agents/mozichem_agent.py:58-124 | the three stages run in order and the constructed agent holds their results; the first failing stage is the error |
| Agents.MoziChemAgent.BuildAgent | mozichem_ai/agents/mozichem_agent.py:209-244 | build_agent fails without a model; the agent has the stored model, a checkpointer iff memory mode, and [multiply, add] without a client |
| Agents.CreateAgent | mozichem_ai/agents/main.py:18-73 | create_agent equals construct-then-build of the given settings |
| MessageManager.Analyze | mozichem_ai/utils/message_manager.py:15-93 | the type tag is "tool", "ai", "user", "system" or "unknown" exactly for the matching message kind; content and name are copied; tool_calls only for AI messages, tool_call_id only for tool messages |
| MessageManager.AnalyzeRoundTrip | mozichem_ai/utils/message_manager.py:41-88 | the four known message kinds can be read back from their AgentMessage; unknown objects cannot |
| RequestModels.ParseAgentConfig | mozichem_ai/models/llm.py:6-36 | a body is rejected exactly when its mcp_source holds an entry value that is not a str, a list of str or a str-to-str dict; otherwise a given member is kept, an absent or null one gives None, and an absent memory_mode gives False |
| RequestModels.ParseLlmConfig | mozichem_ai/models/llm.py:39-55 | an LlmConfig body is rejected exactly when some member is null, since no field is Optional |
| RequestModels.AgentConfigDefaults | mozichem_ai/models/llm.py:6-36 | every AgentConfig field defaults to None except memory_mode, which defaults to False |
| RequestModels.LlmConfigDefaults | mozichem_ai/models/llm.py:39-55 | LlmConfig defaults are "openai", "gpt-4-mini", 0.0 and 2048; given values are kept |
| AiApi.MoziChemAIAPI.constructor | mozichem_ai/api/ai_api.py:12-17 | a new API holds no agent |
| AiApi.MoziChemAIAPI.CreateMozichemAgent | mozichem_ai/api/ai_api.py:29-61 | the first successful call builds and caches the agent with default temperature and max_tokens; a cached agent is returned whatever the arguments |
| AiApi.MoziChemAIAPI.UserAgentChat | mozichem_ai/api/ai_api.py:63-90 | without an agent, or when invoke fails, the call fails with "Failed to process user message"; otherwise it returns invoke's response unchanged |
| ApiMain.AgentConfigOverrides | mozichem_ai/api/main.py:136-155 | /agent-config replaces a setting only when the request carries it, a given mcp_source becoming an inline source with the same entries in the same order; kwargs and app.state then hold the same temperature and max_tokens, from the prior kwargs or 0.0 / 2048 |
| ApiMain.OmittedMemoryModeResets | mozichem_ai/api/main.py:145-146 | a valid request that omits memory_mode turns memory off, because the field defaults to False |
| ApiMain.AgentConfigFailureKeepsAgent | mozichem_ai/api/main.py:136-174 | when building fails, /agent-config answers 500 but keeps the applied settings and the previous agent |
| ApiMain.LlmConfigNameNotKept | mozichem_ai/api/main.py:185-211 | /llm-config builds its agent with the requested model name, but the closure keeps the old one, so a later initialization uses the old name |
| ApiMain.LlmConfigWritesBoth | mozichem_ai/api/main.py:190-201 | /llm-config always writes temperature and max_tokens to kwargs and app.state; an omitted member writes its default |
| ApiMain.ChatOutcomes | mozichem_ai/api/main.py:243-262 | /chat errors are always 500; no agent fails; a falsy response is returned as is; otherwise the last message of the state is returned |
| ApiMain.ApiServer.constructor | mozichem_ai/api/main.py:33-76 | the server starts with the given settings and no agent, temperature or max_tokens in app.state |
| ApiMain.ApiServer.AgentInitialization | mozichem_ai/api/main.py:80-117 | the agent is rebuilt from the closure settings; on failure 500 and the old agent stays; nothing else changes |
| ApiMain.ApiServer.SetAgentConfig | mozichem_ai/api/main.py:119-174 | the new state and response are those of the /agent-config step on the old state |
| ApiMain.ApiServer.SetLlmConfig | mozichem_ai/api/main.py:176-223 | the new state and response are those of the /llm-config step; the model name, prompt, source and memory mode are left unchanged |
| ApiMain.ApiServer.UserAgentChat | mozichem_ai/api/main.py:225-262 | the response is that of the /chat step on the current state, every error being 500 "Failed to process user message" |
| LlmCheck.CheckLlm | mozichem_ai/api/llm.py:18-56 | missing provider or name is rejected first, an unsupported provider next, both as 500; success iff both pass and the ping succeeds, returning its value; a ping error keeps its text |
| LlmCheck.GuardsPrecedePing | mozichem_ai/api/llm.py:33-51 | while a guard fails the outcome does not depend on the model |
| LlmInit.InitializeModel | mozichem_ai/llms/llm_models.py:17-56 | an invalid provider is refused; otherwise the model is built with the given name, provider and options, or the library's error is passed on |
| LlmInit.AcceptedProviders | mozichem_ai/llms/llm_models.py:41-44 | exactly openai, google and anthropic pass the guard |
| LlmInit.GuardPrecedesLibrary | mozichem_ai/llms/llm_models.py:41-52 | an invalid provider is refused whatever the library would do |
| ConfigApi.ShutdownStep | mozichem_ai/api/config_api.py:20-53 | shutdown succeeds iff is_running is True, then sets it to False; otherwise 500 and the state is unchanged |
| ConfigApi.SecondShutdownFails | mozichem_ai/api/config_api.py:29-41 | after a successful shutdown the next one fails |
| ConfigApi.ShutdownServer | mozichem_ai/api/config_api.py:20-53 | the method's new is_running and response are those of the shutdown step |

## Left out

- Loading YAML and reading files: the loader is a parameter that returns either the parsed value or an error. `utils/loader.py` is not part of this model.
- The LLM, `init_chat_model`, `MultiServerMCPClient`, `get_tools`, `create_react_agent`, the ping of `LlmManager` and `ainvoke`: each is a parameter that may fail. The text of the exceptions they raise is not modelled.
- Exception details: the model keeps the fixed prefixes, such as "Failed to configure agent", and drops the `: {e}` text appended to them.
- Logging, CORS, the FastAPI app object, `api/app.py`, the launcher `app.py`, `memory/config_memory.py` and `models/api.py`: none of them decides an outcome of the core.
- The `/` and `/agent-initialization` routes: the first returns a constant and the second only delegates to `agent_initialization`.
- `/config/exit`: stopping the event loop from a thread is not modelled. Nothing in the modelled files sets `is_running` to True, so whoever sets it is not part of this model.
- Concurrency and async execution: each handler runs as one step.
- Serialising a `/chat` reply through the AgentMessage response model: the reply is kept as the message itself.
- Temperature is a real number with exact arithmetic, and floating point is not modelled. Only the `temperature` and `max_tokens` keys of kwargs are modelled. Other keys, such as the `model_provider` that the launcher passes, reach no modelled behaviour.
- AgentConfig.model_provider is accepted and then ignored by the handlers, as in the code.
- LangChain message content is a string. Content made of a list of blocks is not modelled.
- The order of keys in result dicts: results are Dafny maps. The insertion order of the input dict is kept.
- pydantic's lax coercions and its error messages are not modelled. Exact types are modelled, including the element types of `AgentConfig.mcp_source`.
- The transport maps and the client feed hold the typed records themselves, not their `model_dump()` dicts. The dump carries the same fields.
- `/llm-config` can raise UnboundLocalError only when `model_name` is None. No validated LlmConfig carries None, so that path is not modelled.
- MessageManager.Analyze: the `except` that turns an exception into HTTP 500 "Failed to analyze messages" is not modelled. No step of the modelled analysis can raise.
- A `/chat` reply whose last message has a type FastAPI cannot serialise is not modelled.
- Where the code and its documentation differ, the code is followed. For example, `/chat` takes no thread id and reports no timings or token counts, because the code computes none of them.

## Findings

| source | as written | input that shows it | evidently intended | confidence | as-written member | corrected member |
|---|---|---|---|---|---|---|
| mozichem_ai/agents/mozichem_agent.py:187-204 | the MCP client is built only when both the stdio and the HTTP maps are empty, over an empty feed; otherwise it logs that no valid MCP configuration was found | one stdio server "chem": no client is built, so the agent gets only multiply and add | build the client over the merged maps whenever at least one server is configured | high; not executed | Agents.ClientGateCounterexample | Agents.ClientFeed |

The rest of the model uses the corrected gate: `Agents.Assemble` and
`Agents.MoziChemAgent.CreateClient` build a client whenever some server is
configured. `Agents.ClientCarriesEveryServer` proves that this client
carries exactly the servers that `config_mcp` returned.
`Agents.ClientGateAsWritten` states what the gate does as written.
