/** The chat payloads that pass through the API: the user's message and
    what the compiled agent's `ainvoke` returns. */
module ChatModels {
  import opened Wrappers
  import opened MessageManager
  import opened Agents

  /** `UserMessage`: the body posted to `/chat`. */
  datatype UserMessage = UserMessage(role: string, content: string)

  /** The value `ainvoke` returns: a falsy value, or the graph state dict,
      which may or may not hold a `messages` list. */
  datatype InvokeResponse = FalsyResponse | StateDict(messages: Option<seq<LcMessage>>)

  /** `agent.ainvoke(message)`, which may raise (the error's text). */
  type Invoker = (CompiledAgent, UserMessage) -> Result<InvokeResponse, string>
}
