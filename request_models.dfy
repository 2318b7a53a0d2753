/** The request bodies of `/agent-config` and `/llm-config` and their
    pydantic defaults. A JSON member may be absent, an explicit null, or
    a value: an absent member takes its default, and a null is accepted
    only by an `Optional` field. */
module RequestModels {
  import opened Wrappers
  import opened McpModels

  datatype Member<+T> = Absent | JsonNull | Given(value: T)

  /** `AgentConfig`: None means "keep the current setting". */
  datatype AgentConfig = AgentConfig(
    modelProvider: Option<string>,
    modelName: Option<string>,
    agentName: Option<string>,
    agentPrompt: Option<string>,
    mcpSource: Option<seq<(string, Fields)>>,
    memoryMode: Option<bool>)

  datatype AgentConfigBody = AgentConfigBody(
    modelProvider: Member<string>,
    modelName: Member<string>,
    agentName: Member<string>,
    agentPrompt: Member<string>,
    mcpSource: Member<seq<(string, Fields)>>,
    memoryMode: Member<bool>)

  /** `LlmConfig`: no field is Optional, so a validated instance never
      carries None. */
  datatype LlmConfig = LlmConfig(
    modelProvider: string,
    modelName: string,
    temperature: real,
    maxTokens: int)

  datatype LlmConfigBody = LlmConfigBody(
    modelProvider: Member<string>,
    modelName: Member<string>,
    temperature: Member<real>,
    maxTokens: Member<int>)

  /** An `Optional[T]` field with the given default. */
  function OptionalField<T>(m: Member<T>, default: Option<T>): Option<T> {
    match m
    case Absent => default
    case JsonNull => None
    case Given(v) => Some(v)
  }

  /** A plain `T` field with the given default; None means the body is
      rejected (null is not a T). */
  function RequiredField<T>(m: Member<T>, default: T): Option<T> {
    match m
    case Absent => Some(default)
    case JsonNull => None
    case Given(v) => Some(v)
  }

  /** A value `mcp_source` admits inside an entry: a str, a List[str] or a
      Dict[str, str]. */
  predicate McpFieldValue(v: RawValue) {
    v.Str? || v.StrList? || v.StrMap?
  }

  /** Every field of every entry of an `mcp_source` dict is admitted. */
  predicate WellTypedMcpSource(es: seq<(string, Fields)>) {
    forall i, k | 0 <= i < |es| && k in es[i].1 :: McpFieldValue(es[i].1[k])
  }

  /** None: FastAPI answers 422 and the handler never runs. */
  function ParseAgentConfig(b: AgentConfigBody): (r: Option<AgentConfig>)
    ensures r.None? <==> b.mcpSource.Given? && !WellTypedMcpSource(b.mcpSource.value)
    ensures r.Some? ==> r.value.mcpSource.Some? ==> WellTypedMcpSource(r.value.mcpSource.value)
    ensures r.Some? ==> (r.value.modelName.Some? <==> b.modelName.Given?)
    ensures r.Some? && b.modelName.Given? ==> r.value.modelName.value == b.modelName.value
    ensures r.Some? ==> (r.value.agentName.Some? <==> b.agentName.Given?)
    ensures r.Some? && b.agentName.Given? ==> r.value.agentName.value == b.agentName.value
    ensures r.Some? ==> (r.value.agentPrompt.Some? <==> b.agentPrompt.Given?)
    ensures r.Some? && b.agentPrompt.Given? ==> r.value.agentPrompt.value == b.agentPrompt.value
    ensures r.Some? ==> (r.value.mcpSource.Some? <==> b.mcpSource.Given?)
    ensures r.Some? && b.mcpSource.Given? ==> r.value.mcpSource.value == b.mcpSource.value
    ensures r.Some? ==> (r.value.memoryMode.None? <==> b.memoryMode.JsonNull?)
    ensures r.Some? && b.memoryMode.Given? ==> r.value.memoryMode.value == b.memoryMode.value
    ensures r.Some? && b.memoryMode.Absent? ==> r.value.memoryMode == Some(false)
  {
    if b.mcpSource.Given? && !WellTypedMcpSource(b.mcpSource.value) then None
    else
      Some(AgentConfig(
        OptionalField(b.modelProvider, None),
        OptionalField(b.modelName, None),
        OptionalField(b.agentName, None),
        OptionalField(b.agentPrompt, None),
        OptionalField(b.mcpSource, None),
        OptionalField(b.memoryMode, Some(false))))
  }

  /** None: FastAPI answers 422 and the handler never runs. */
  function ParseLlmConfig(b: LlmConfigBody): (r: Option<LlmConfig>)
    ensures r.None? <==> b.modelProvider.JsonNull? || b.modelName.JsonNull?
                         || b.temperature.JsonNull? || b.maxTokens.JsonNull?
  {
    var provider := RequiredField(b.modelProvider, "openai");
    var name := RequiredField(b.modelName, "gpt-4-mini");
    var temperature := RequiredField(b.temperature, 0.0);
    var maxTokens := RequiredField(b.maxTokens, 2048);
    if provider.Some? && name.Some? && temperature.Some? && maxTokens.Some? then
      Some(LlmConfig(provider.value, name.value, temperature.value, maxTokens.value))
    else
      None
  }

  /** Every AgentConfig field defaults to None except memory_mode, which
      defaults to False; an explicit null gives None for every field. */
  lemma AgentConfigDefaults()
    ensures ParseAgentConfig(AgentConfigBody(Absent, Absent, Absent, Absent, Absent, Absent))
            == Some(AgentConfig(None, None, None, None, None, Some(false)))
    ensures ParseAgentConfig(AgentConfigBody(JsonNull, JsonNull, JsonNull, JsonNull, JsonNull, JsonNull))
            == Some(AgentConfig(None, None, None, None, None, None))
  {
  }

  /** LlmConfig defaults: provider "openai", model "gpt-4-mini",
      temperature 0.0, max_tokens 2048; given values are kept. */
  lemma LlmConfigDefaults(b: LlmConfigBody)
    ensures ParseLlmConfig(LlmConfigBody(Absent, Absent, Absent, Absent)) == Some(LlmConfig("openai", "gpt-4-mini", 0.0, 2048))
    ensures ParseLlmConfig(b).Some? && b.temperature.Given? ==> ParseLlmConfig(b).value.temperature == b.temperature.value
    ensures ParseLlmConfig(b).Some? && b.maxTokens.Given? ==> ParseLlmConfig(b).value.maxTokens == b.maxTokens.value
    ensures ParseLlmConfig(b).Some? && b.modelName.Given? ==> ParseLlmConfig(b).value.modelName == b.modelName.value
  {
  }
}
