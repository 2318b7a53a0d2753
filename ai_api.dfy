/** `MoziChemAIAPI`: holds one lazily built agent. The first successful
    `create_mozichem_agent` caches it; later calls return the cached agent
    whatever their arguments. */
module AiApi {
  import opened Wrappers
  import opened McpManager
  import opened Agents
  import opened ChatModels

  /** Every failure of `user_agent_chat` is raised as this ValueError. */
  const ChatFailure: string := "Failed to process user message"

  class MoziChemAIAPI {
    var mozichemAgent: Option<CompiledAgent>

    constructor ()
      ensures mozichemAgent == None
    {
      mozichemAgent := None;
    }

    /** `create_mozichem_agent`: no keyword arguments are passed on, so the
        agent gets temperature 0.0 and max_tokens 2048. */
    method CreateMozichemAgent(modelName: string, agentName: string, agentPrompt: string,
                               mcpSource: McpSource, memoryMode: bool, lib: Library)
      returns (r: Result<CompiledAgent, AgentError>)
      modifies this
      ensures old(mozichemAgent).Some? ==> r == Ok(old(mozichemAgent).value) && mozichemAgent == old(mozichemAgent)
      ensures old(mozichemAgent).None? ==>
                && r == CreateAgentSpec(Settings(modelName, agentName, agentPrompt, mcpSource, memoryMode, Kwargs(None, None)), lib)
                && mozichemAgent == (if r.Ok? then Some(r.value) else None)
    {
      if mozichemAgent.None? {
        var built := CreateAgent(Settings(modelName, agentName, agentPrompt, mcpSource, memoryMode, Kwargs(None, None)), lib);
        if built.Err? {
          return Err(built.error);
        }
        mozichemAgent := Some(built.value);
      }
      return Ok(mozichemAgent.value);
    }

    /** `user_agent_chat`: the response of `ainvoke`, unchanged. */
    method UserAgentChat(message: UserMessage, invoke: Invoker) returns (r: Result<InvokeResponse, string>)
      ensures mozichemAgent.None? ==> r == Err(ChatFailure)
      ensures r.Err? ==> r.error == ChatFailure
      ensures r.Ok? <==> mozichemAgent.Some? && invoke(mozichemAgent.value, message).Ok?
      ensures r.Ok? ==> r.value == invoke(mozichemAgent.value, message).value
    {
      if mozichemAgent.None? {
        return Err(ChatFailure);
      }
      var response := invoke(mozichemAgent.value, message);
      if response.Err? {
        return Err(ChatFailure);
      }
      return Ok(response.value);
    }
  }
}
