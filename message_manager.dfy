/** `agent_message_analyzer`: turns a LangChain message into the flat
    `AgentMessage` record the chat UI receives. The four known kinds get
    their own type tag; anything else is tagged "unknown" (it is logged,
    never rejected). */
module MessageManager {
  import opened Wrappers

  /** A tool call requested by the model. */
  datatype ToolCall = ToolCall(name: string, args: map<string, string>, id: Option<string>)

  /** What the analyzer can be handed. */
  datatype LcMessage =
    | ToolMessage(content: string, name: Option<string>, toolCallId: string)
    | AiMessage(content: string, name: Option<string>, toolCalls: seq<ToolCall>)
    | HumanMessage(content: string, name: Option<string>)
    | SystemMessage(content: string, name: Option<string>)
    | OtherObject(contentAttr: Option<string>)  // no `content` attribute: None

  /** The record the analyzer builds (its `type` field is `messageType`). */
  datatype AgentMessage = AgentMessage(
    messageType: string,
    content: string,
    toolCalls: Option<seq<ToolCall>>,
    name: Option<string>,
    toolCallId: Option<string>)

  function Analyze(m: LcMessage): (r: AgentMessage)
    ensures r.messageType == "tool" <==> m.ToolMessage?
    ensures r.messageType == "ai" <==> m.AiMessage?
    ensures r.messageType == "user" <==> m.HumanMessage?
    ensures r.messageType == "system" <==> m.SystemMessage?
    ensures r.messageType == "unknown" <==> m.OtherObject?
    ensures !m.OtherObject? ==> r.content == m.content && r.name == m.name
    ensures m.OtherObject? ==> r.name == None
    ensures m.OtherObject? ==> r.content == (if m.contentAttr.Some? then m.contentAttr.value else "")
    ensures r.toolCallId.Some? <==> m.ToolMessage?
    ensures m.ToolMessage? ==> r.toolCallId == Some(m.toolCallId)
    ensures r.toolCalls.Some? <==> m.AiMessage?
    ensures m.AiMessage? ==> r.toolCalls == Some(m.toolCalls)
  {
    match m
    case ToolMessage(content, name, id) => AgentMessage("tool", content, None, name, Some(id))
    case AiMessage(content, name, calls) => AgentMessage("ai", content, Some(calls), name, None)
    case HumanMessage(content, name) => AgentMessage("user", content, None, name, None)
    case SystemMessage(content, name) => AgentMessage("system", content, None, name, None)
    case OtherObject(c) => AgentMessage("unknown", if c.Some? then c.value else "", None, None, None)
  }

  /** Reads a known message back from its record. */
  function Restore(a: AgentMessage): Option<LcMessage> {
    if a.messageType == "tool" && a.toolCallId.Some? then Some(ToolMessage(a.content, a.name, a.toolCallId.value))
    else if a.messageType == "ai" && a.toolCalls.Some? then Some(AiMessage(a.content, a.name, a.toolCalls.value))
    else if a.messageType == "user" then Some(HumanMessage(a.content, a.name))
    else if a.messageType == "system" then Some(SystemMessage(a.content, a.name))
    else None
  }

  /** For the four known kinds the record loses nothing: the message can
      be read back from it. Other objects are not recoverable. */
  lemma AnalyzeRoundTrip(m: LcMessage)
    ensures !m.OtherObject? ==> Restore(Analyze(m)) == Some(m)
    ensures m.OtherObject? ==> Restore(Analyze(m)) == None
  {
  }
}
